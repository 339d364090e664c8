/**
 Referential integrity, acyclic fallbacks and command-queue discipline hold in every
 reachable store, whatever saves fail.
 */
module StoreIntegrity {
  import opened Wrappers
  import opened Tuning
  import opened Templates
  import opened CommandQueue
  import opened StoreState
  import opened StoreEffects
  import opened StoreRuns

  // ----- the invariant -----

  /** Every map key is the identifier of its value, was issued, and is not the absent reference. */
  ghost predicate Keyed(s: State, issued: set<Id>) {
    && "" !in issued
    && RigKeys(s.rigs, issued) && FarmKeys(s.farms, issued) && WalletKeys(s.wallets, issued)
        && PoolKeys(s.pools, issued)
    && MinerKeys(s.miners, issued) && SheetKeys(s.sheets, issued) && ProfileKeys(s.profiles, issued)
        && ScheduleKeys(s.schedules, issued)
  }

  ghost predicate RigKeys(m: map<Id, Rig>, issued: set<Id>) { forall k :: k in m ==> m[k].id == k && k in issued }
  ghost predicate FarmKeys(m: map<Id, Farm>, issued: set<Id>) { forall k :: k in m ==> m[k].id == k && k in issued }
  ghost predicate WalletKeys(m: map<Id, Wallet>, issued: set<Id>) { forall k :: k in m ==> m[k].id == k && k in issued }
  ghost predicate PoolKeys(m: map<Id, Pool>, issued: set<Id>) { forall k :: k in m ==> m[k].id == k && k in issued }
  ghost predicate MinerKeys(m: map<Id, Miner>, issued: set<Id>) { forall k :: k in m ==> m[k].id == k && k in issued }
  ghost predicate SheetKeys(m: map<Id, Sheet>, issued: set<Id>) { forall k :: k in m ==> m[k].id == k && k in issued }
  ghost predicate ProfileKeys(m: map<Id, Profile>, issued: set<Id>) {
    forall k :: k in m ==> m[k].id == k && k in issued
  }
  ghost predicate ScheduleKeys(m: map<Id, Schedule>, issued: set<Id>) {
    forall k :: k in m ==> m[k].id == k && k in issued
  }

  ghost predicate SheetResolves(s: State, v: Sheet) {
    && v.walletId in s.wallets && v.poolId in s.pools && v.minerId in s.miners
    && (v.secondaryWalletId != "" ==> v.secondaryWalletId in s.wallets)
    && (v.secondaryPoolId != "" ==> v.secondaryPoolId in s.pools)
    && (v.fallbackId != "" ==> v.fallbackId in s.sheets)
  }

  ghost predicate RigResolves(s: State, r: Rig) {
    && (r.farmId != "" ==> r.farmId in s.farms)
    && (r.desired.sheetId != "" ==> r.desired.sheetId in s.sheets)
    && (r.desired.profileId != "" ==> r.desired.profileId in s.profiles)
  }

  ghost predicate ScheduleResolves(s: State, v: Schedule) {
    && ScheduleActionAccepted(v)
    && (forall i :: 0 <= i < |v.rigIds| ==> v.rigIds[i] in s.rigs)
    && (v.sheetId != "" ==> v.sheetId in s.sheets)
  }

  ghost predicate SheetsResolve(s: State) { forall k :: k in s.sheets ==> SheetResolves(s, s.sheets[k]) }
  ghost predicate RigsResolve(s: State) { forall k :: k in s.rigs ==> RigResolves(s, s.rigs[k]) }
  ghost predicate SchedulesResolve(s: State) { forall k :: k in s.schedules ==> ScheduleResolves(s, s.schedules[k]) }

  /** A rank that falls along every fallback edge. */
  ghost predicate Ranked(sheets: map<Id, Sheet>, rank: map<Id, nat>) {
    && (forall k :: k in sheets ==> k in rank)
    && (forall k :: k in sheets && sheets[k].fallbackId in sheets ==> rank[sheets[k].fallbackId] < rank[k])
  }

  ghost predicate Acyclic(sheets: map<Id, Sheet>) {
    exists rank :: Ranked(sheets, rank)
  }

  /** A queue has distinct, issued command identifiers and at most one open smart tune. */
  ghost predicate Disciplined(queue: seq<Command>, issued: set<Id>) {
    && DistinctIds(queue) && OneOpen(queue, SmartTune)
    && (forall i :: 0 <= i < |queue| ==> queue[i].id in issued)
  }

  ghost predicate Queues(rigs: map<Id, Rig>, issued: set<Id>) {
    forall k :: k in rigs ==> Disciplined(rigs[k].commands, issued)
  }

  ghost predicate NamesDiffer(rigs: map<Id, Rig>) {
    forall a, b :: a in rigs && b in rigs && a != b ==> Fold(rigs[a].name) != Fold(rigs[b].name)
  }

  ghost predicate Sound(s: State, issued: set<Id>) {
    && Keyed(s, issued)
    && SheetsResolve(s) && RigsResolve(s) && SchedulesResolve(s)
    && Acyclic(s.sheets) && Queues(s.rigs, issued) && NamesDiffer(s.rigs)
  }

  ghost predicate SoundDb(db: Db) {
    Sound(db.memory, db.issued) && Sound(db.disk, db.issued)
  }

  ghost predicate SoundEffect(e: Effect, issued: set<Id>) {
    match e
    case Reject(m, _) => Sound(m, issued)
    case Done(m) => Sound(m, issued)
    case Save(n) => Sound(n, issued)
  }

  // ----- parts of the invariant that an operation leaves alone -----

  ghost predicate SameReferences(a: Rig, b: Rig) {
    a.farmId == b.farmId && a.desired.sheetId == b.desired.sheetId && a.desired.profileId == b.desired.profileId
  }

  lemma SheetsStay(s: State, t: State)
    requires SheetsResolve(s) && t.sheets == s.sheets
    requires s.wallets.Keys <= t.wallets.Keys && s.pools.Keys <= t.pools.Keys && s.miners.Keys <= t.miners.Keys
    ensures SheetsResolve(t)
  {
    forall k | k in t.sheets ensures SheetResolves(t, t.sheets[k]) {
      assert SheetResolves(s, s.sheets[k]);
    }
  }

  lemma RigsStay(s: State, t: State)
    requires RigsResolve(s)
    requires forall k :: k in t.rigs ==> k in s.rigs && SameReferences(t.rigs[k], s.rigs[k])
    requires s.farms.Keys <= t.farms.Keys && s.sheets.Keys <= t.sheets.Keys && s.profiles.Keys <= t.profiles.Keys
    ensures RigsResolve(t)
  {
    forall k | k in t.rigs ensures RigResolves(t, t.rigs[k]) {
      assert RigResolves(s, s.rigs[k]);
    }
  }

  lemma SchedulesStay(s: State, t: State)
    requires SchedulesResolve(s) && t.schedules == s.schedules
    requires s.rigs.Keys <= t.rigs.Keys && s.sheets.Keys <= t.sheets.Keys
    ensures SchedulesResolve(t)
  {
    forall k | k in t.schedules ensures ScheduleResolves(t, t.schedules[k]) {
      assert ScheduleResolves(s, s.schedules[k]);
    }
  }

  /** Rigs that only changed in revision or telemetry. */
  ghost predicate SameRigs(a: map<Id, Rig>, b: map<Id, Rig>) {
    && a.Keys == b.Keys
    && forall k :: k in a ==>
        b[k] == a[k].(desired := a[k].desired.(revision := b[k].desired.revision), telemetry := b[k].telemetry)
  }

  lemma SameRigsParts(a: map<Id, Rig>, b: map<Id, Rig>, issued: set<Id>)
    requires SameRigs(a, b) && RigKeys(a, issued) && Queues(a, issued) && NamesDiffer(a)
    ensures RigKeys(b, issued) && Queues(b, issued) && NamesDiffer(b)
  {
    hide Disciplined, Fold;
  }

  lemma SameRigsSound(s: State, rigs: map<Id, Rig>, issued: set<Id>)
    requires Sound(s, issued) && SameRigs(s.rigs, rigs)
    ensures Sound(s.(rigs := rigs), issued)
  {
    hide Acyclic, Queues, NamesDiffer, SheetsResolve, RigsResolve, SchedulesResolve;
    SameRigsParts(s.rigs, rigs, issued);
    SheetsStay(s, s.(rigs := rigs));
    RigsStay(s, s.(rigs := rigs));
    SchedulesStay(s, s.(rigs := rigs));
  }

  lemma BumpedSound(s: State, kind: Resource, id: Id, issued: set<Id>)
    requires Sound(s, issued)
    ensures Sound(Bumped(s, kind, id), issued)
  {
    hide Sound;
    SameRigsSound(s, BumpedRigs(s, kind, id), issued);
  }

  lemma QueuesGrow(rigs: map<Id, Rig>, issued: set<Id>, more: set<Id>)
    requires Queues(rigs, issued)
    ensures Queues(rigs, issued + more)
  {
    forall k | k in rigs ensures Disciplined(rigs[k].commands, issued + more) {
      assert Disciplined(rigs[k].commands, issued);
    }
  }

  lemma IssuedGrows(s: State, issued: set<Id>, more: set<Id>)
    requires Sound(s, issued) && "" !in more
    ensures Sound(s, issued + more)
  {
    hide Acyclic, Queues, NamesDiffer, SheetsResolve, RigsResolve, SchedulesResolve;
    QueuesGrow(s.rigs, issued, more);
  }

  /** Changing a resource in place, or adding one, keeps every reference. */
  lemma AddedSound(s: State, t: State, issued: set<Id>)
    requires Sound(s, issued) && Keyed(t, issued)
    requires t.rigs == s.rigs && t.sheets == s.sheets && t.schedules == s.schedules
    requires s.farms.Keys <= t.farms.Keys && s.wallets.Keys <= t.wallets.Keys && s.pools.Keys <= t.pools.Keys
    requires s.miners.Keys <= t.miners.Keys && s.profiles.Keys <= t.profiles.Keys
    ensures Sound(t, issued)
  {
    hide Acyclic, Queues, NamesDiffer, SheetsResolve, RigsResolve, SchedulesResolve, Keyed;
    SheetsStay(s, t);
    RigsStay(s, t);
    SchedulesStay(s, t);
  }

  /** A saved sheet points at a sink other than itself, so it closes no cycle. */
  lemma SinkEdgeAcyclic(sheets: map<Id, Sheet>, id: Id, v: Sheet)
    requires Acyclic(sheets) && id != ""
    requires forall k :: k in sheets ==> k != ""
    requires v.fallbackId != "" ==>
             v.fallbackId in sheets && v.fallbackId != id && sheets[v.fallbackId].fallbackId == ""
    requires id !in sheets ==> forall k :: k in sheets ==> sheets[k].fallbackId != id
    ensures Acyclic(sheets[id := v])
  {
    var rank :| Ranked(sheets, rank);
    var raised: map<Id, nat> := map k | k in sheets.Keys + {id} :: if k == v.fallbackId then 0
        else if k in rank then rank[k] + 1 else 1;
    var next := sheets[id := v];
    forall k | k in next && next[k].fallbackId in next
      ensures raised[next[k].fallbackId] < raised[k]
    {
      if k != id {
        assert k in sheets;
        if next[k].fallbackId in sheets {
          assert rank[sheets[k].fallbackId] < rank[k];
        }
      }
    }
    assert Ranked(next, raised);
  }

  // ----- operation by operation -----

  lemma SaveFarmSound(s: State, v: Farm, minted: Id, ok: bool, issued: set<Id>)
    requires Sound(s, issued) && minted in issued
    ensures SoundEffect(SaveFarm(s, v, minted, ok), issued)
  {
    hide Sound;
    if SaveFarm(s, v, minted, ok).Save? {
      var id := if v.id == "" then minted else v.id;
      KeysKnown(s, issued);
      assert v.id != "" ==> v.(id := id) == v;
      FarmPut(s, id, v.(id := id), issued);
    }
  }

  lemma FarmPut(s: State, id: Id, v: Farm, issued: set<Id>)
    requires Sound(s, issued) && id in issued && v.id == id
    ensures Sound(s.(farms := s.farms[id := v]), issued)
  {
    hide Acyclic, Queues, NamesDiffer, SheetsResolve, RigsResolve, SchedulesResolve;
    AddedSound(s, s.(farms := s.farms[id := v]), issued);
  }

  lemma WalletPut(s: State, id: Id, v: Wallet, issued: set<Id>)
    requires Sound(s, issued) && id in issued && v.id == id
    ensures Sound(s.(wallets := s.wallets[id := v]), issued)
  {
    hide Acyclic, Queues, NamesDiffer, SheetsResolve, RigsResolve, SchedulesResolve;
    AddedSound(s, s.(wallets := s.wallets[id := v]), issued);
  }

  lemma PoolPut(s: State, id: Id, v: Pool, issued: set<Id>)
    requires Sound(s, issued) && id in issued && v.id == id
    ensures Sound(s.(pools := s.pools[id := v]), issued)
  {
    hide Acyclic, Queues, NamesDiffer, SheetsResolve, RigsResolve, SchedulesResolve;
    AddedSound(s, s.(pools := s.pools[id := v]), issued);
  }

  lemma MinerPut(s: State, id: Id, v: Miner, issued: set<Id>)
    requires Sound(s, issued) && id in issued && v.id == id
    ensures Sound(s.(miners := s.miners[id := v]), issued)
  {
    hide Acyclic, Queues, NamesDiffer, SheetsResolve, RigsResolve, SchedulesResolve;
    AddedSound(s, s.(miners := s.miners[id := v]), issued);
  }

  lemma ProfilePut(s: State, id: Id, v: Profile, issued: set<Id>)
    requires Sound(s, issued) && id in issued && v.id == id
    ensures Sound(s.(profiles := s.profiles[id := v]), issued)
  {
    hide Acyclic, Queues, NamesDiffer, SheetsResolve, RigsResolve, SchedulesResolve;
    AddedSound(s, s.(profiles := s.profiles[id := v]), issued);
  }

  /** What a sound state says about identifiers, without its other parts. */
  lemma KeysKnown(s: State, issued: set<Id>)
    requires Sound(s, issued)
    ensures "" !in issued
    ensures forall k :: k in s.wallets ==> k in issued && s.wallets[k].id == k
    ensures forall k :: k in s.pools ==> k in issued && s.pools[k].id == k
    ensures forall k :: k in s.miners ==> k in issued && s.miners[k].id == k
    ensures forall k :: k in s.profiles ==> k in issued && s.profiles[k].id == k
    ensures forall k :: k in s.sheets ==> k in issued && s.sheets[k].id == k
    ensures forall k :: k in s.rigs ==> k in issued && s.rigs[k].id == k
    ensures forall k :: k in s.farms ==> k in issued && s.farms[k].id == k
    ensures forall k :: k in s.schedules ==> k in issued && s.schedules[k].id == k
  {
    hide Acyclic, Queues, NamesDiffer, SheetsResolve, RigsResolve, SchedulesResolve;
  }

  lemma SaveWalletSound(s: State, v: Wallet, minted: Id, ok: bool, issued: set<Id>)
    requires Sound(s, issued) && minted in issued
    ensures SoundEffect(SaveWallet(s, v, minted, ok), issued)
  {
    hide Sound, Bumped;
    KeysKnown(s, issued);
    if SaveWallet(s, v, minted, ok).Save? {
      var id := if v.id == "" then minted else v.id;
      WalletPut(s, id, v.(id := id), issued);
      BumpedSound(s.(wallets := s.wallets[id := v.(id := id)]), WalletOf, id, issued);
    }
  }

  lemma SavePoolSound(s: State, v: Pool, minted: Id, ok: bool, issued: set<Id>)
    requires Sound(s, issued) && minted in issued
    ensures SoundEffect(SavePool(s, v, minted, ok), issued)
  {
    hide Sound, Bumped;
    KeysKnown(s, issued);
    if SavePool(s, v, minted, ok).Save? {
      var id := if v.id == "" then minted else v.id;
      assert v.id != "" ==> v.(id := id) == v;
      PoolPut(s, id, v.(id := id), issued);
      BumpedSound(s.(pools := s.pools[id := v.(id := id)]), PoolOf, id, issued);
    }
  }

  lemma {:induction false} CatalogTwinExists(miners: map<Id, Miner>, v: Miner, order: seq<Id>)
    requires forall k :: k in miners ==> miners[k].id == k
    ensures CatalogTwin(miners, v, order).Some? ==> CatalogTwin(miners, v, order).value in miners
  {
    if order != [] { CatalogTwinExists(miners, v, order[1..]); }
  }

  lemma SaveMinerSound(s: State, v: Miner, minted: Id, ok: bool, order: seq<Id>, issued: set<Id>)
    requires Sound(s, issued) && minted in issued
    ensures SoundEffect(SaveMiner(s, v, minted, ok, order), issued)
  {
    hide Sound, Bumped;
    KeysKnown(s, issued);
    CatalogTwinExists(s.miners, v, order);
    if SaveMiner(s, v, minted, ok, order).Save? {
      var twin := if v.catalogId == "" then None else CatalogTwin(s.miners, v, order);
      var named := if v.id == "" && twin.Some? then v.(id := twin.value) else v;
      var stored := if named.id == "" then named.(id := minted) else Inherit(named, s.miners[named.id]);
      MinerPut(s, stored.id, stored, issued);
      BumpedSound(s.(miners := s.miners[stored.id := stored]), MinerOf, stored.id, issued);
    }
  }

  lemma SaveProfileSound(s: State, v: Profile, minted: Id, ok: bool, issued: set<Id>)
    requires Sound(s, issued) && minted in issued
    ensures SoundEffect(SaveProfile(s, v, minted, ok), issued)
  {
    hide Sound, Bumped;
    KeysKnown(s, issued);
    if SaveProfile(s, v, minted, ok).Save? {
      var id := if v.id == "" then minted else v.id;
      ProfilePut(s, id, v.(id := id), issued);
      BumpedSound(s.(profiles := s.profiles[id := v.(id := id)]), ProfileOf, id, issued);
    }
  }

  lemma StoredSheetResolves(s: State, v: Sheet)
    requires SheetsResolve(s) && SheetResolves(s, v)
    ensures SheetsResolve(s.(sheets := s.sheets[v.id := v]))
  {
    var t := s.(sheets := s.sheets[v.id := v]);
    forall k | k in t.sheets ensures SheetResolves(t, t.sheets[k]) {
      if k != v.id { assert SheetResolves(s, s.sheets[k]); }
    }
  }

  lemma NobodyFallsBackOnNewSheet(s: State, id: Id)
    requires SheetsResolve(s) && id !in s.sheets && id != ""
    ensures forall k :: k in s.sheets ==> s.sheets[k].fallbackId != id
  {
    forall k | k in s.sheets ensures s.sheets[k].fallbackId != id {
      assert SheetResolves(s, s.sheets[k]);
    }
  }

  lemma StoredSheetSound(s: State, v: Sheet, issued: set<Id>)
    requires Sound(s, issued) && v.id in issued
    requires SheetResolves(s, v)
    requires v.fallbackId != "" ==> v.fallbackId != v.id && s.sheets[v.fallbackId].fallbackId == ""
    ensures Sound(s.(sheets := s.sheets[v.id := v]), issued)
  {
    hide Acyclic, Queues, NamesDiffer, SheetsResolve, RigsResolve, SchedulesResolve;
    var t := s.(sheets := s.sheets[v.id := v]);
    StoredSheetResolves(s, v);
    RigsStay(s, t);
    SchedulesStay(s, t);
    if v.id !in s.sheets { NobodyFallsBackOnNewSheet(s, v.id); }
    SinkEdgeAcyclic(s.sheets, v.id, v);
  }

  lemma SaveSheetSound(cat: Catalog, s: State, v: Sheet, minted: Id, ok: bool, issued: set<Id>)
    requires Sound(s, issued) && minted in issued && minted !in s.sheets
    ensures SoundEffect(SaveSheet(cat, s, v, minted, ok), issued)
  {
    hide Sound, Bumped, Fold;
    KeysKnown(s, issued);
    if SaveSheet(cat, s, v, minted, ok).Save? {
      var coded := v.(algorithm := cat.forCoin(s.miners[v.minerId].catalogId, v.coin, v.algorithm));
      var coined := coded.(coin := if coded.coin == "" then s.wallets[coded.walletId].coin else coded.coin);
      var id := if coined.id == "" then minted else coined.id;
      StoredSheetSound(s, coined.(id := id), issued);
      BumpedSound(s.(sheets := s.sheets[id := coined.(id := id)]), SheetOf, id, issued);
    }
  }

  lemma AssignedNamesDiffer(rigs: map<Id, Rig>, rigId: Id, rig: Rig)
    requires NamesDiffer(rigs) && rigId in rigs
    requires rig.name == rigs[rigId].name || !NameTaken(rigs, rig.name, rigId)
    ensures NamesDiffer(rigs[rigId := rig])
  {
    hide Fold;
  }

  /** One rig replaced: its references resolve, its queue is disciplined, its name is its own. */
  lemma RigReplacedSound(s: State, rigId: Id, rig: Rig, issued: set<Id>)
    requires Sound(s, issued) && rigId in s.rigs && rig.id == rigId
    requires RigResolves(s, rig) && Disciplined(rig.commands, issued)
    requires rig.name == s.rigs[rigId].name || !NameTaken(s.rigs, rig.name, rigId)
    ensures Sound(s.(rigs := s.rigs[rigId := rig]), issued)
  {
    hide Acyclic, NamesDiffer, SheetsResolve, SchedulesResolve, Disciplined, NameTaken;
    var t := s.(rigs := s.rigs[rigId := rig]);
    AssignedNamesDiffer(s.rigs, rigId, rig);
    SheetsStay(s, t);
    SchedulesStay(s, t);
    assert RigsResolve(t) by {
      forall k | k in t.rigs ensures RigResolves(t, t.rigs[k]) {
        if k != rigId { assert RigResolves(s, s.rigs[k]); }
      }
    }
  }

  lemma RigKnown(s: State, rigId: Id, issued: set<Id>)
    requires Sound(s, issued) && rigId in s.rigs
    ensures RigResolves(s, s.rigs[rigId]) && Disciplined(s.rigs[rigId].commands, issued) && s.rigs[rigId].id == rigId
  {
    hide Acyclic, NamesDiffer, SheetsResolve, SchedulesResolve, Disciplined, RigResolves;
  }

  lemma AssignSound(s: State, rigId: Id, a: Assignment, issued: set<Id>)
    requires Sound(s, issued)
    ensures SoundEffect(AssignWorker(s, rigId, a), issued)
  {
    hide Sound, NameTaken, Disciplined;
    if AssignWorker(s, rigId, a).Save? {
      RigKnown(s, rigId, issued);
      RigReplacedSound(s, rigId, Assigned(s.rigs[rigId], a), issued);
    }
  }

  lemma PowerSameRigs(rigs: map<Id, Rig>)
    ensures SameRigs(rigs, PowerBumped(rigs))
  {
  }

  lemma LimitSound(s: State, watts: int, issued: set<Id>)
    requires Sound(s, issued)
    ensures Sound(s.(maxPowerW := watts), issued)
  {
    hide Acyclic, Queues, NamesDiffer, SheetsResolve, RigsResolve, SchedulesResolve;
    SheetsStay(s, s.(maxPowerW := watts));
    RigsStay(s, s.(maxPowerW := watts));
    SchedulesStay(s, s.(maxPowerW := watts));
  }

  lemma PowerSound(s: State, watts: int, issued: set<Id>)
    requires Sound(s, issued)
    ensures SoundEffect(SetPowerPolicy(s, watts), issued)
  {
    hide Sound, SameRigs, PowerBumped;
    PowerSameRigs(s.rigs);
    LimitSound(s, watts, issued);
    SameRigsSound(s.(maxPowerW := watts), PowerBumped(s.rigs), issued);
  }

  lemma FewerSheetsAcyclic(sheets: map<Id, Sheet>, id: Id)
    requires Acyclic(sheets)
    ensures Acyclic(sheets - {id})
  {
    var rank :| Ranked(sheets, rank);
    assert Ranked(sheets - {id}, rank);
  }

  lemma DeletedSheetsResolve(s: State, kind: Kind, id: Id)
    requires SheetsResolve(s) && !SheetRefers(s, kind, id) && id != ""
    ensures SheetsResolve(Without(s, kind, id))
  {
    var t := Without(s, kind, id);
    forall k | k in t.sheets ensures SheetResolves(t, t.sheets[k]) {
      assert SheetResolves(s, s.sheets[k]);
    }
  }

  lemma DeletedRigsResolve(s: State, kind: Kind, id: Id)
    requires RigsResolve(s) && !RigRefers(s, kind, id)
    ensures RigsResolve(Without(s, kind, id))
  {
    var t := Without(s, kind, id);
    forall k | k in t.rigs ensures RigResolves(t, t.rigs[k]) {
      assert RigResolves(s, s.rigs[k]);
    }
  }

  lemma DeletedSchedulesResolve(s: State, kind: Kind, id: Id)
    requires SchedulesResolve(s) && !ScheduleRefers(s, kind, id)
    ensures SchedulesResolve(Without(s, kind, id))
  {
    var t := Without(s, kind, id);
    forall k | k in t.schedules ensures ScheduleResolves(t, t.schedules[k]) {
      assert ScheduleResolves(s, s.schedules[k]);
    }
  }

  /** Nothing that is referred to is deleted. */
  lemma DeleteSound(s: State, kind: Kind, id: Id, filesOk: bool, issued: set<Id>)
    requires Sound(s, issued)
    ensures SoundEffect(Delete(s, kind, id, filesOk), issued)
  {
    hide Acyclic, Queues, NamesDiffer, SheetsResolve, RigsResolve, SchedulesResolve, RigRefers, SheetRefers,
         ScheduleRefers;
    if Exists(s, kind, id) && !RigRefers(s, kind, id) && !SheetRefers(s, kind, id) && !ScheduleRefers(s, kind, id) {
      FewerSheetsAcyclic(s.sheets, id);
      DeletedSheetsResolve(s, kind, id);
      DeletedRigsResolve(s, kind, id);
      DeletedSchedulesResolve(s, kind, id);
    }
  }

  lemma SaveScheduleSound(s: State, v: Schedule, minted: Id, ok: bool, issued: set<Id>)
    requires Sound(s, issued) && minted in issued
    ensures SoundEffect(SaveSchedule(s, v, minted, ok), issued)
  {
    hide Acyclic, Queues, NamesDiffer, SheetsResolve, RigsResolve;
    var e := SaveSchedule(s, v, minted, ok);
    if e.Save? {
      var t := e.next;
      SheetsStay(s, t);
      RigsStay(s, t);
      assert SchedulesResolve(t) by {
        forall k | k in t.schedules ensures ScheduleResolves(t, t.schedules[k]) {
          if k in s.schedules { assert ScheduleResolves(s, s.schedules[k]); }
        }
      }
    }
  }

  lemma EnrolledParts(s: State, name: string, minted: Id, issued: set<Id>)
    requires Queues(s.rigs, issued) && NamesDiffer(s.rigs) && RigsResolve(s) && minted !in s.rigs
             && !NameTaken(s.rigs, name, "")
    requires "" !in s.rigs
    ensures var t := s.(rigs := s.rigs[minted := FRESH_RIG.(id := minted, name := name)]);
            Queues(t.rigs, issued) && NamesDiffer(t.rigs) && RigsResolve(t)
  {
    hide Fold;
    var t := s.(rigs := s.rigs[minted := FRESH_RIG.(id := minted, name := name)]);
    forall k | k in t.rigs ensures RigResolves(t, t.rigs[k]) && Disciplined(t.rigs[k].commands, issued) {
      if k != minted { assert RigResolves(s, s.rigs[k]) && Disciplined(s.rigs[k].commands, issued); }
    }
  }

  lemma EnrollSound(s: State, name: string, minted: Id, ok: bool, issued: set<Id>)
    requires Sound(s, issued) && minted in issued && minted !in s.rigs
    ensures SoundEffect(Enroll(s, name, minted, ok), issued)
  {
    hide Acyclic, Queues, NamesDiffer, SheetsResolve, RigsResolve, SchedulesResolve, NameTaken;
    var e := Enroll(s, name, minted, ok);
    if e.Save? {
      EnrolledParts(s, name, minted, issued);
      SheetsStay(s, e.next);
      SchedulesStay(s, e.next);
    }
  }

  lemma UnscheduledResolve(s: State, t: State, rigId: Id)
    requires SchedulesResolve(s) && t.rigs == s.rigs - {rigId} && t.sheets == s.sheets
    requires t.schedules == map k | k in s.schedules :: Unscheduled(s.schedules[k], rigId)
    ensures SchedulesResolve(t)
  {
    forall k | k in t.schedules ensures ScheduleResolves(t, t.schedules[k]) {
      assert ScheduleResolves(s, s.schedules[k]);
      var left := t.schedules[k].rigIds;
      forall i | 0 <= i < |left| ensures left[i] in t.rigs {
        assert left[i] in s.schedules[k].rigIds;
      }
    }
  }

  lemma DeleteRigSound(s: State, rigId: Id, issued: set<Id>)
    requires Sound(s, issued)
    ensures SoundEffect(DeleteRig(s, rigId), issued)
  {
    hide Acyclic, Disciplined, Fold, SheetsResolve, RigsResolve, SchedulesResolve;
    var e := DeleteRig(s, rigId);
    if e.Save? {
      SheetsStay(s, e.next);
      RigsStay(s, e.next);
      UnscheduledResolve(s, e.next, rigId);
    }
  }

  lemma HeartbeatSound(s: State, rigId: Id, t: Telemetry, ok: bool, issued: set<Id>)
    requires Sound(s, issued)
    ensures SoundEffect(Heartbeat(s, rigId, t, ok), issued)
  {
    hide Sound;
    if rigId in s.rigs {
      SameRigsSound(s, s.rigs[rigId := s.rigs[rigId].(telemetry := t)], issued);
    }
  }

  lemma UploadSound(s: State, minerId: Id, seen: Miner, binary: string, package: string, ok: bool, issued: set<Id>)
    requires Sound(s, issued)
    ensures SoundEffect(UploadMiner(s, minerId, seen, binary, package, ok), issued)
  {
    hide Sound, Bumped;
    KeysKnown(s, issued);
    if UploadMiner(s, minerId, seen, binary, package, ok).Save? {
      var m := s.miners[minerId].(binarySha256 := binary, packageSha256 := package, managedBinary := true);
      MinerPut(s, minerId, m, issued);
      BumpedSound(s.(miners := s.miners[minerId := m]), MinerOf, minerId, issued);
    }
  }

  lemma ResolvingSound(cat: Catalog, s: State, sheet: Sheet, issued: set<Id>)
    requires Sound(s, issued)
    ensures Sound(AfterResolving(cat, s, sheet), issued)
    ensures AfterResolving(cat, s, sheet) == s.(miners := AfterResolving(cat, s, sheet).miners)
  {
    hide Sound, RewritesStored, DropWorkers;
    KeysKnown(s, issued);
    if sheet.minerId in s.miners {
      var m := s.miners[sheet.minerId];
      MinerPut(s, sheet.minerId, m.(defaultArguments := DropWorkers(m.defaultArguments)), issued);
    }
  }

  lemma ServeSound(cat: Catalog, s: State, rigId: Id, issued: set<Id>)
    requires Sound(s, issued)
    ensures Sound(AfterServing(cat, s, rigId), issued)
  {
    hide Sound, AfterResolving, Starts;
    if rigId in s.rigs && s.rigs[rigId].desired.sheetId in s.sheets {
      var sheet := s.sheets[s.rigs[rigId].desired.sheetId];
      ResolvingSound(cat, s, sheet, issued);
      if sheet.fallbackId in s.sheets {
        ResolvingSound(cat, AfterResolving(cat, s, sheet), s.sheets[sheet.fallbackId], issued);
      }
    }
  }

  // ----- queues -----

  lemma EnqueueDisciplined(queue: seq<Command>, c: Command, issued: set<Id>)
    requires Disciplined(queue, issued) && c.id in issued
    requires forall i :: 0 <= i < |queue| ==> queue[i].id != c.id
    requires c.action.SmartTune? ==> !HasOpen(queue, SmartTune)
    ensures Disciplined(queue + [c], issued)
  {
  }

  /** A command that changes state without reopening keeps the discipline. */
  lemma UpdateDisciplined(queue: seq<Command>, i: nat, c: Command, issued: set<Id>)
    requires Disciplined(queue, issued) && i < |queue|
    requires c.id == queue[i].id && c.action == queue[i].action
    requires Terminal(queue[i]) ==> Terminal(c)
    ensures Disciplined(queue[i := c], issued)
  {
    var next := queue[i := c];
    forall a, b | 0 <= a < b < |next|
      ensures !(OpenWith(next[a], SmartTune) && OpenWith(next[b], SmartTune))
    {
      assert !(OpenWith(queue[a], SmartTune) && OpenWith(queue[b], SmartTune));
    }
  }

  lemma AddCommandSound(s: State, rigId: Id, request: Request, minted: Id, now: int, textOk: bool, guardOk: bool,
      before: set<Id>, issued: set<Id>)
    requires Sound(s, before) && Sound(s, issued) && minted in issued && minted !in before
    ensures SoundEffect(AddCommand(s, rigId, request, minted, now, textOk, guardOk), issued)
  {
    hide Sound;
    if AddCommand(s, rigId, request, minted, now, textOk, guardOk).Save? {
      var rig := s.rigs[rigId];
      RigKnown(s, rigId, before);
      RigKnown(s, rigId, issued);
      var action := request.action.value;
      var profile := if action.SmartTune? then s.profiles[rig.desired.profileId].id else request.profile;
      EnqueueDisciplined(rig.commands, Queued(minted, action, profile), issued);
      RigReplacedSound(s, rigId, Enqueue(rig, minted, action, profile), issued);
    }
  }

  /** Command identifiers in the queues come from before or are among those used since. */
  ghost predicate Sourced(rigs: map<Id, Rig>, before: set<Id>, used: set<Id>) {
    forall k, j :: k in rigs && 0 <= j < |rigs[k].commands| ==> rigs[k].commands[j].id in before + used
  }

  lemma QueuesSourced(rigs: map<Id, Rig>, before: set<Id>)
    requires Queues(rigs, before)
    ensures Sourced(rigs, before, {})
  {
    forall k, j | k in rigs && 0 <= j < |rigs[k].commands|
      ensures rigs[k].commands[j].id in before
    {
      assert Disciplined(rigs[k].commands, before);
    }
  }

  function Members(ids: seq<Id>): set<Id> {
    set i | 0 <= i < |ids| :: ids[i]
  }

  lemma MembersSplit(ids: seq<Id>)
    requires |ids| > 0
    ensures Members(ids) == Members(ids[..|ids| - 1]) + {ids[|ids| - 1]}
    ensures Distinct(ids) ==> Distinct(ids[..|ids| - 1]) && ids[|ids| - 1] !in Members(ids[..|ids| - 1])
  {
    var front := ids[..|ids| - 1];
    assert forall i :: 0 <= i < |front| ==> front[i] == ids[i];
    forall x | x in Members(ids) ensures x in Members(front) + {ids[|ids| - 1]} {
      var i :| 0 <= i < |ids| && ids[i] == x;
      if i < |front| { assert front[i] == x; }
    }
    forall x | x in Members(front) ensures x in Members(ids) {
      var i :| 0 <= i < |front| && front[i] == x;
      assert ids[i] == x;
    }
  }

  lemma EnqueuedOneSound(s: State, rigId: Id, action: Action, profile: string, minted: Id, before: set<Id>,
      used: set<Id>, issued: set<Id>)
    requires Sound(s, issued) && rigId in s.rigs && !action.SmartTune? && minted in issued
    requires Sourced(s.rigs, before, used) && minted !in before + used
    ensures Sound(s.(rigs := s.rigs[rigId := Enqueue(s.rigs[rigId], minted, action, profile)]), issued)
    ensures Sourced(s.rigs[rigId := Enqueue(s.rigs[rigId], minted, action, profile)], before, used + {minted})
  {
    hide Sound, Disciplined;
    RigKnown(s, rigId, issued);
    EnqueueDisciplined(s.rigs[rigId].commands, Queued(minted, action, profile), issued);
    RigReplacedSound(s, rigId, Enqueue(s.rigs[rigId], minted, action, profile), issued);
  }

  lemma {:induction false} EnqueuedAllSound(s: State, rigIds: seq<Id>, action: Action, profile: string, minted: seq<Id>,
      before: set<Id>, issued: set<Id>)
    requires Sound(s, issued) && Sourced(s.rigs, before, {}) && |minted| == |rigIds| && !action.SmartTune?
    requires Distinct(minted) && Members(minted) <= issued && Members(minted) !! before
    ensures Sound(s.(rigs := EnqueuedAll(s.rigs, rigIds, action, profile, minted)), issued)
    ensures Sourced(EnqueuedAll(s.rigs, rigIds, action, profile, minted), before, Members(minted))
  {
    hide Sound, Members, Distinct;
    if rigIds == [] {
      assert s.(rigs := s.rigs) == s;
    } else {
      var n := |rigIds| - 1;
      MembersSplit(minted);
      EnqueuedAllSound(s, rigIds[..n], action, profile, minted[..n], before, issued);
      var front := EnqueuedAll(s.rigs, rigIds[..n], action, profile, minted[..n]);
      var t := s.(rigs := front);
      if rigIds[n] in front {
        EnqueuedOneSound(t, rigIds[n], action, profile, minted[n], before, Members(minted[..n]), issued);
        var last := front[rigIds[n] := Enqueue(front[rigIds[n]], minted[n], action, profile)];
        assert t.(rigs := last) == s.(rigs := last);
      }
    }
  }

  lemma SoundSourced(s: State, before: set<Id>)
    requires Sound(s, before)
    ensures Sourced(s.rigs, before, {})
  {
    hide Acyclic, Queues, NamesDiffer, SheetsResolve, RigsResolve, SchedulesResolve, Keyed;
    QueuesSourced(s.rigs, before);
  }

  lemma AddCommandsSound(s: State, rigIds: seq<Id>, action: Option<Action>, profile: string, minted: seq<Id>,
      before: set<Id>, issued: set<Id>)
    requires Sound(s, before) && Sound(s, issued) && |minted| == |rigIds|
    requires Distinct(minted) && Members(minted) <= issued && Members(minted) !! before
    ensures SoundEffect(AddCommands(s, rigIds, action, profile, minted), issued)
  {
    hide Sound, Members;
    if AddCommands(s, rigIds, action, profile, minted).Save? {
      SoundSourced(s, before);
      EnqueuedAllSound(s, rigIds, action.value, profile, minted, before, issued);
    }
  }

  lemma NextSound(s: State, rigId: Id, now: int, issued: set<Id>)
    requires Sound(s, issued)
    ensures SoundEffect(NextCommand(s, rigId, now), issued)
  {
    hide Sound, Disciplined;
    if NextCommand(s, rigId, now).Save? {
      var rig := s.rigs[rigId];
      RigKnown(s, rigId, issued);
      var i := FirstLeasable(rig.commands, now);
      UpdateDisciplined(rig.commands, i, Leased(rig.commands[i], now), issued);
      RigReplacedSound(s, rigId, rig.(commands := rig.commands[i := Leased(rig.commands[i], now)]), issued);
    }
  }

  lemma FinishedRigSound(s: State, rigId: Id, i: nat, c: Command, rig: Rig, issued: set<Id>)
    requires Sound(s, issued) && rigId in s.rigs && i < |s.rigs[rigId].commands|
    requires c.id == s.rigs[rigId].commands[i].id && c.action == s.rigs[rigId].commands[i].action && Terminal(c)
    requires rig.commands == s.rigs[rigId].commands[i := c] && SameReferences(rig, s.rigs[rigId])
             && rig.id == s.rigs[rigId].id && rig.name == s.rigs[rigId].name
    ensures Sound(s.(rigs := s.rigs[rigId := rig]), issued)
  {
    hide Sound, Disciplined;
    RigKnown(s, rigId, issued);
    UpdateDisciplined(s.rigs[rigId].commands, i, c, issued);
    RigReplacedSound(s, rigId, rig, issued);
  }

  lemma FinishSound(s: State, rigId: Id, commandId: Id, result: Result, order: seq<Id>, issued: set<Id>)
    requires Sound(s, issued)
    ensures SoundEffect(FinishCommand(s, rigId, commandId, result, order), issued)
  {
    hide Sound, Completed, Find;
    if FinishCommand(s, rigId, commandId, result, order).Save? {
      CompletedSound(s, rigId, Find(s.rigs[rigId].commands, commandId), result, order, issued);
    }
  }

  lemma CompletedSound(s: State, rigId: Id, i: nat, result: Result, order: seq<Id>, issued: set<Id>)
    requires Sound(s, issued) && rigId in s.rigs && i < |s.rigs[rigId].commands|
    ensures Sound(Completed(s, rigId, i, result, order), issued)
  {
    hide Sound, TunedProfile, TuneLands;
    var rig := s.rigs[rigId];
    var c := rig.commands[i];
    if result.error == "" && c.action.SmartTune? {
      if TuneLands(s, rigId, c, result) {
        TunedExists(s, rigId, c, result);
        TuneLandedSound(s, rigId, i, result, order, issued);
      } else {
        FinishedRigSound(s, rigId, i, Finished(c, TUNE_REFUSED, result.output),
            Ended(rig, i, TUNE_REFUSED, result.output), issued);
      }
    } else {
      FinishedRigSound(s, rigId, i, Finished(c, result.error, result.output),
          Ended(rig, i, result.error, result.output), issued);
    }
  }

  lemma TuneLandedSound(s: State, rigId: Id, i: nat, result: Result, order: seq<Id>, issued: set<Id>)
    requires Sound(s, issued) && rigId in s.rigs && i < |s.rigs[rigId].commands|
    requires s.rigs[rigId].commands[i].profile in s.profiles
    ensures var p := TunedProfile(s.profiles[s.rigs[rigId].commands[i].profile], result.tuned, order, s.maxPowerW);
            Sound(s.(profiles := s.profiles[p.id := p],
                rigs := s.rigs[rigId := BumpRig(Ended(s.rigs[rigId], i, "", result.output))]), issued)
  {
    hide Sound, TunedProfile;
    var c := s.rigs[rigId].commands[i];
    var p := TunedProfile(s.profiles[c.profile], result.tuned, order, s.maxPowerW);
    var done := BumpRig(Ended(s.rigs[rigId], i, "", result.output));
    KeysKnown(s, issued);
    TunedKeepsId(s.profiles[c.profile], result.tuned, order, s.maxPowerW);
    FinishedRigSound(s, rigId, i, Finished(c, "", result.output), done, issued);
    ProfilePut(s.(rigs := s.rigs[rigId := done]), p.id, p, issued);
  }

  lemma TunedExists(s: State, rigId: Id, c: Command, result: Result)
    requires rigId in s.rigs && TuneLands(s, rigId, c, result)
    ensures c.profile in s.profiles && s.rigs[rigId].desired.profileId == c.profile
  {
  }

  lemma TunedKeepsId(p: Profile, tuned: seq<Setting>, order: seq<string>, maximum: int)
    ensures TunedProfile(p, tuned, order, maximum) == p.(settings := TunedProfile(p, tuned, order, maximum).settings)
  {
  }

  // ----- schedules and quick setup -----

  /** A visited rig stays sound: it gets an existing sheet, or one more command that is not a smart tune. */
  lemma VisitSound(s: State, rigId: Id, v: Schedule, id: Id, before: set<Id>, used: set<Id>, issued: set<Id>)
    requires Sound(s, issued) && rigId in s.rigs && ScheduleResolves(s, v)
    requires id in issued && id !in before + used && Sourced(s.rigs, before, used)
    ensures Sound(s.(rigs := s.rigs[rigId := Visit(s.rigs[rigId], v, id)]), issued)
    ensures Sourced(s.rigs[rigId := Visit(s.rigs[rigId], v, id)], before, used + {id})
  {
    hide Sound, Disciplined;
    RigKnown(s, rigId, issued);
    if v.action.Send? {
      EnqueuedOneSound(s, rigId, v.action.action, "", id, before, used, issued);
    } else {
      RigReplacedSound(s, rigId, Visit(s.rigs[rigId], v, id), issued);
    }
  }

  ghost predicate TokensFresh(tokens: Tokens, before: set<Id>, issued: set<Id>) {
    && Injective(tokens) && tokens.Values !! before && tokens.Values <= issued
  }

  /** The tokens of the schedules already run, and of the first n rigs of one more. */
  ghost function Used(tokens: Tokens, done: set<Id>, key: Id, n: nat): set<Id> {
    set t | t in tokens && (t.0 in done || (t.0 == key && t.1 < n)) :: tokens[t]
  }

  lemma UsedOneMore(tokens: Tokens, done: set<Id>, key: Id, n: nat, before: set<Id>, issued: set<Id>)
    requires (key, n) in tokens && key !in done && TokensFresh(tokens, before, issued)
    ensures Used(tokens, done, key, n + 1) == Used(tokens, done, key, n) + {tokens[(key, n)]}
    ensures tokens[(key, n)] !in before + Used(tokens, done, key, n) && tokens[(key, n)] in issued
  {
    assert tokens[(key, n)] in tokens.Values;
    forall t | t in tokens && (t.0 in done || (t.0 == key && t.1 < n))
      ensures tokens[t] != tokens[(key, n)]
    {
    }
  }

  lemma {:induction false} VisitedSound(s: State, v: Schedule, key: Id, n: nat, tokens: Tokens, done: set<Id>,
      before: set<Id>, issued: set<Id>)
    requires Sound(s, issued) && ScheduleResolves(s, v) && n <= |v.rigIds| && key !in done
    requires TokensFresh(tokens, before, issued)
    requires forall i: nat :: i < |v.rigIds| ==> (key, i) in tokens
    requires Sourced(s.rigs, before, Used(tokens, done, key, 0))
    ensures Sound(s.(rigs := Visited(s.rigs, v, key, n, tokens)), issued)
    ensures Visited(s.rigs, v, key, n, tokens).Keys == s.rigs.Keys
    ensures Sourced(Visited(s.rigs, v, key, n, tokens), before, Used(tokens, done, key, n))
  {
    hide Sound, Used, TokensFresh, Sourced;
    if n == 0 {
      assert s.(rigs := s.rigs) == s;
    } else {
      VisitedSound(s, v, key, n - 1, tokens, done, before, issued);
      var front := Visited(s.rigs, v, key, n - 1, tokens);
      var t := s.(rigs := front);
      var rigId := v.rigIds[n - 1];
      UsedOneMore(tokens, done, key, n - 1, before, issued);
      VisitSound(t, rigId, v, tokens[(key, n - 1)], before, Used(tokens, done, key, n - 1), issued);
      var last := front[rigId := Visit(front[rigId], v, tokens[(key, n - 1)])];
      assert t.(rigs := last) == s.(rigs := last);
    }
  }

  lemma MarkedSound(s: State, key: Id, v: Schedule, issued: set<Id>)
    requires Sound(s, issued) && key in s.schedules && ScheduleResolves(s, v) && v.id == key
    ensures Sound(s.(schedules := s.schedules[key := v]), issued)
  {
    hide Acyclic, Queues, NamesDiffer, SheetsResolve, RigsResolve;
    var t := s.(schedules := s.schedules[key := v]);
    SheetsStay(s, t);
    RigsStay(s, t);
    forall k | k in t.schedules ensures ScheduleResolves(t, t.schedules[k]) {
      assert ScheduleResolves(s, s.schedules[k]);
    }
  }

  lemma ScheduleKnown(s: State, key: Id, issued: set<Id>)
    requires Sound(s, issued) && key in s.schedules
    ensures ScheduleResolves(s, s.schedules[key]) && s.schedules[key].id == key
  {
    hide Acyclic, Queues, NamesDiffer, SheetsResolve, RigsResolve;
  }

  lemma UsedClosed(tokens: Tokens, done: set<Id>, key: Id, n: nat)
    ensures Used(tokens, done, key, n) <= Used(tokens, done + {key}, "", 0)
    ensures Used(tokens, done, "", 0) == Used(tokens, done, key, 0)
  {
  }

  lemma SourcedMore(rigs: map<Id, Rig>, before: set<Id>, used: set<Id>, more: set<Id>)
    requires Sourced(rigs, before, used) && used <= more
    ensures Sourced(rigs, before, more)
  {
  }

  lemma RunOneSound(s: State, key: Id, now: Moment, tokens: Tokens, done: set<Id>, before: set<Id>, issued: set<Id>)
    requires Sound(s, issued) && key !in done && TokensFresh(tokens, before, issued)
    requires EnoughTokens(s.schedules, tokens)
    requires Sourced(s.rigs, before, Used(tokens, done, "", 0))
    ensures Sound(RunOne(s, key, now, tokens), issued)
    ensures EnoughTokens(RunOne(s, key, now, tokens).schedules, tokens)
    ensures Sourced(RunOne(s, key, now, tokens).rigs, before, Used(tokens, done + {key}, "", 0))
  {
    hide Sound, Used, TokensFresh, Sourced;
    UsedClosed(tokens, done, key, 0);
    SourcedMore(s.rigs, before, Used(tokens, done, "", 0), Used(tokens, done + {key}, "", 0));
    if key in s.schedules && Due(s.schedules[key], now) {
      var v := s.schedules[key];
      ScheduleKnown(s, key, issued);
      VisitedSound(s, v, key, |v.rigIds|, tokens, done, before, issued);
      var t := s.(rigs := Visited(s.rigs, v, key, |v.rigIds|, tokens));
      UsedClosed(tokens, done, key, |v.rigIds|);
      SourcedMore(t.rigs, before, Used(tokens, done, key, |v.rigIds|), Used(tokens, done + {key}, "", 0));
      MarkedSound(t, key, v.(lastRunMinute := now.minute), issued);
      assert RunOne(s, key, now, tokens) == t.(schedules := t.schedules[key := v.(lastRunMinute := now.minute)]);
    }
  }

  lemma {:induction false} RunAllSound(s: State, order: seq<Id>, now: Moment, tokens: Tokens, before: set<Id>,
      issued: set<Id>)
    requires Sound(s, issued) && Sourced(s.rigs, before, {}) && Distinct(order) && TokensFresh(tokens, before, issued)
    requires EnoughTokens(s.schedules, tokens)
    ensures Sound(RunAll(s, order, now, tokens), issued)
    ensures EnoughTokens(RunAll(s, order, now, tokens).schedules, tokens)
    ensures Sourced(RunAll(s, order, now, tokens).rigs, before, Used(tokens, Members(order), "", 0))
  {
    hide Sound, TokensFresh, Sourced, RunOne, EnoughTokens;
    if order == [] {
      SourcedMore(s.rigs, before, {}, Used(tokens, Members(order), "", 0));
    } else {
      var n := |order| - 1;
      MembersSplit(order);
      RunAllSound(s, order[..n], now, tokens, before, issued);
      RunOneSound(RunAll(s, order[..n], now, tokens), order[n], now, tokens, Members(order[..n]), before, issued);
    }
  }

  lemma {:induction false} FindWalletExists(wallets: map<Id, Wallet>, coin: string, address: string, order: seq<Id>)
    requires forall k :: k in wallets ==> wallets[k].id == k
    ensures var f := FindWallet(wallets, coin, address, order);
            f.Some? ==> f.value.id in wallets && wallets[f.value.id] == f.value
  {
    hide Fold;
    if order != [] { FindWalletExists(wallets, coin, address, order[1..]); }
  }

  lemma {:induction false} FindPoolExists(pools: map<Id, Pool>, url: string, password: string, order: seq<Id>)
    requires forall k :: k in pools ==> pools[k].id == k
    ensures var f := FindPool(pools, url, password, order);
            f.Some? ==> f.value.id in pools && pools[f.value.id] == f.value
  {
    if order != [] { FindPoolExists(pools, url, password, order[1..]); }
  }

  lemma {:induction false} FindEntryExists(miners: map<Id, Miner>, entry: Miner, order: seq<Id>)
    requires forall k :: k in miners ==> miners[k].id == k
    ensures var f := FindEntry(miners, entry, order); f.Some? ==> f.value.id in miners && miners[f.value.id] == f.value
  {
    hide Fold;
    if order != [] { FindEntryExists(miners, entry, order[1..]); }
  }

  lemma WithWalletSound(s: State, coin: string, address: string, order: seq<Id>, minted: Id, issued: set<Id>)
    requires Sound(s, issued) && minted in issued
    ensures var (t, id) := WithWallet(s, coin, address, order, minted);
            Sound(t, issued) && id in t.wallets && t == s.(wallets := t.wallets) && s.wallets.Keys <= t.wallets.Keys
  {
    hide Sound, FindWallet;
    KeysKnown(s, issued);
    FindWalletExists(s.wallets, coin, address, order);
    WalletPut(s, minted, Wallet(minted, coin + " Wallet", coin, address), issued);
  }

  lemma WithPoolSound(s: State, url: string, host: string, password: string, order: seq<Id>, minted: Id,
      issued: set<Id>)
    requires Sound(s, issued) && minted in issued
    ensures var (t, id) := WithPool(s, url, host, password, order, minted);
            Sound(t, issued) && id in t.pools && t == s.(pools := t.pools) && s.pools.Keys <= t.pools.Keys
  {
    hide Sound, FindPool;
    KeysKnown(s, issued);
    FindPoolExists(s.pools, url, password, order);
    PoolPut(s, minted, Pool(minted, host, url, password), issued);
  }

  lemma WithMinerSound(s: State, q: QuickInput, order: seq<Id>, minted: Id, issued: set<Id>)
    requires Sound(s, issued) && minted in issued && (q.minerId != "" ==> q.minerId in s.miners)
    ensures var (t, m) := WithMiner(s, q, order, minted);
            Sound(t, issued) && m.id in t.miners && t.miners[m.id] == m && t == s.(miners := t.miners)
                && s.miners.Keys <= t.miners.Keys
  {
    hide Sound, FindEntry;
    KeysKnown(s, issued);
    FindEntryExists(s.miners, q.entry, order);
    MinerPut(s, minted, q.entry.(id := minted), issued);
  }

  lemma {:induction false} RedirectedSound(s: State, rigIds: seq<Id>, sheetId: Id, issued: set<Id>)
    requires Sound(s, issued) && sheetId in s.sheets
    ensures Sound(s.(rigs := Redirected(s.rigs, rigIds, sheetId)), issued)
  {
    hide Sound, Disciplined;
    if rigIds == [] {
      assert s.(rigs := s.rigs) == s;
    } else {
      var n := |rigIds| - 1;
      RedirectedSound(s, rigIds[..n], sheetId, issued);
      var front := Redirected(s.rigs, rigIds[..n], sheetId);
      var t := s.(rigs := front);
      if rigIds[n] in front {
        RigKnown(t, rigIds[n], issued);
        var rig := BumpRig(front[rigIds[n]].(desired := front[rigIds[n]].desired.(sheetId := sheetId)));
        RigReplacedSound(t, rigIds[n], rig, issued);
        assert t.(rigs := front[rigIds[n] := rig]) == s.(rigs := front[rigIds[n] := rig]);
      }
    }
  }

  ghost predicate PickedResolve(p: Picked) {
    && p.wallet in p.state.wallets && p.pool in p.state.pools
    && (p.wallet2 != "" ==> p.wallet2 in p.state.wallets)
    && (p.pool2 != "" ==> p.pool2 in p.state.pools)
  }

  lemma PickedSound(s: State, q: QuickInput, ids: QuickFresh, orders: QuickOrder, issued: set<Id>)
    requires Sound(s, issued) && {ids.wallet, ids.pool, ids.wallet2, ids.pool2} <= issued
    ensures var p := PickSecondary(PickPrimary(s, q, ids, orders), q, ids, orders);
            Sound(p.state, issued) && PickedResolve(p) && p.state.miners == s.miners && p.state.sheets == s.sheets
  {
    hide Sound, WithWallet, WithPool;
    WithWalletSound(s, q.coin, q.walletAddress, orders.wallets, ids.wallet, issued);
    var (s1, wallet) := WithWallet(s, q.coin, q.walletAddress, orders.wallets, ids.wallet);
    WithPoolSound(s1, q.poolUrl, q.poolHost, q.poolPassword, orders.pools, ids.pool, issued);
    var (s2, pool) := WithPool(s1, q.poolUrl, q.poolHost, q.poolPassword, orders.pools, ids.pool);
    if QuickSecondary(q) {
      WithWalletSound(s2, q.secondaryCoin, q.secondaryWalletAddress, orders.wallets + [ids.wallet], ids.wallet2,
          issued);
      var (s3, wallet2) :=
          WithWallet(s2, q.secondaryCoin, q.secondaryWalletAddress, orders.wallets + [ids.wallet], ids.wallet2);
      WithPoolSound(s3, q.secondaryPoolUrl, q.secondaryPoolHost, q.secondaryPoolPassword, orders.pools + [ids.pool],
          ids.pool2, issued);
    }
  }

  lemma QuickSheetSound(p: Picked, q: QuickInput, minerId: Id, id: Id, issued: set<Id>)
    requires Sound(p.state, issued) && PickedResolve(p) && minerId in p.state.miners && id in issued
    ensures Sound(WithQuickSheet(p, q, minerId, id), issued)
  {
    hide Sound;
    var sheet := QuickSheet(q, id, p.wallet, p.pool, minerId, p.wallet2, p.pool2);
    StoredSheetSound(p.state, sheet, issued);
    RedirectedSound(p.state.(sheets := p.state.sheets[id := sheet]), q.rigIds, id, issued);
  }

  lemma QuickSound(s: State, q: QuickInput, checks: QuickChecks, ids: QuickFresh, orders: QuickOrder, issued: set<Id>)
    requires Sound(s, issued) && {ids.miner, ids.wallet, ids.pool, ids.wallet2, ids.pool2, ids.sheet} <= issued
    ensures SoundEffect(QuickSetup(s, q, checks, ids, orders), issued)
  {
    hide Sound, WithMiner, PickPrimary, PickSecondary, WithQuickSheet, PickedResolve;
    if q.minerId == "" || q.minerId in s.miners {
      WithMinerSound(s, q, orders.miners, ids.miner, issued);
      var (s1, miner) := WithMiner(s, q, orders.miners, ids.miner);
      PickedSound(s1, q, ids, orders, issued);
      QuickSheetSound(PickSecondary(PickPrimary(s1, q, ids, orders), q, ids, orders), q, miner.id, ids.sheet, issued);
    }
  }

  // ----- every reachable store -----

  lemma MemoryKeysOld(db: Db)
    requires SoundDb(db)
    ensures db.memory.sheets.Keys <= db.issued && db.memory.rigs.Keys <= db.issued
  {
    KeysKnown(db.memory, db.issued);
  }

  /** The operations on resources, and on the store as a whole. */
  predicate OnResources(op: Op) {
    || op.OpSaveFarm? || op.OpSaveWallet? || op.OpSavePool? || op.OpSaveMiner? || op.OpSaveSheet? || op.OpSaveProfile?
    || op.OpDelete? || op.OpQuick? || op.OpSaveSchedule? || op.OpUpload? || op.OpServe? || op.OpRestart?
  }

  lemma ResourceEffectSound(cat: Catalog, db: Db, op: Op)
    requires SoundDb(db) && Enabled(db, op) && OnResources(op)
    ensures SoundEffect(EffectOf(cat, db.memory, op), db.issued + Drawn(op))
  {
    hide Sound, Distinct, SaveFarm, SaveWallet, SavePool, SaveMiner, SaveSheet, SaveProfile, AssignWorker,
         SetPowerPolicy, Delete, QuickSetup, SaveSchedule, RunSchedules, Enroll, DeleteRig, Heartbeat, UploadMiner,
         AddCommand, AddCommands, NextCommand, FinishCommand, AfterServing;
    var s, issued := db.memory, db.issued + Drawn(op);
    MemoryKeysOld(db);
    IssuedGrows(s, db.issued, Drawn(op));
    match op
    case OpSaveFarm(v, id, ok) => SaveFarmSound(s, v, id, ok, issued);
    case OpSaveWallet(v, id, ok) => SaveWalletSound(s, v, id, ok, issued);
    case OpSavePool(v, id, ok) => SavePoolSound(s, v, id, ok, issued);
    case OpSaveMiner(v, id, ok, order) => SaveMinerSound(s, v, id, ok, order, issued);
    case OpSaveSheet(v, id, ok) => SaveSheetSound(cat, s, v, id, ok, issued);
    case OpSaveProfile(v, id, ok) => SaveProfileSound(s, v, id, ok, issued);
    case OpDelete(k, id, ok) => DeleteSound(s, k, id, ok, issued);
    case OpQuick(q, checks, ids, orders) => QuickSound(s, q, checks, ids, orders, issued);
    case OpSaveSchedule(v, id, ok) => SaveScheduleSound(s, v, id, ok, issued);
    case OpUpload(m, seen, binary, package, ok) => UploadSound(s, m, seen, binary, package, ok, issued);
    case OpServe(r) => ServeSound(cat, s, r, issued);
    case _ =>
  }

  lemma RigEffectSound(cat: Catalog, db: Db, op: Op)
    requires SoundDb(db) && Enabled(db, op) && !OnResources(op)
    ensures SoundEffect(EffectOf(cat, db.memory, op), db.issued + Drawn(op))
  {
    hide Sound, Distinct, SaveFarm, SaveWallet, SavePool, SaveMiner, SaveSheet, SaveProfile, AssignWorker,
         SetPowerPolicy, Delete, QuickSetup, SaveSchedule, Enroll, DeleteRig, Heartbeat, UploadMiner, AddCommand,
         AddCommands, NextCommand, FinishCommand, AfterServing;
    var s, issued := db.memory, db.issued + Drawn(op);
    MemoryKeysOld(db);
    IssuedGrows(s, db.issued, Drawn(op));
    match op
    case OpAssign(r, a) => AssignSound(s, r, a, issued);
    case OpPower(w) => PowerSound(s, w, issued);
    case OpRunSchedules(now, order, tokens) =>
      SoundSourced(s, db.issued);
      RunAllSound(s, order, now, tokens, db.issued, issued);
    case OpEnroll(name, id, ok) => EnrollSound(s, name, id, ok, issued);
    case OpDeleteRig(r) => DeleteRigSound(s, r, issued);
    case OpHeartbeat(r, t, ok) => HeartbeatSound(s, r, t, ok, issued);
    case OpAddCommand(r, request, id, now, textOk, guardOk) => AddCommandSound(s, r, request, id, now, textOk, guardOk,
        db.issued, issued);
    case OpAddCommands(rs, action, profile, ids) => AddCommandsSound(s, rs, action, profile, ids, db.issued, issued);
    case OpNext(r, now) => NextSound(s, r, now, issued);
    case OpFinish(r, c, result, order) => FinishSound(s, r, c, result, order, issued);
    case _ =>
  }

  lemma EffectSound(cat: Catalog, db: Db, op: Op)
    requires SoundDb(db) && Enabled(db, op)
    ensures SoundEffect(EffectOf(cat, db.memory, op), db.issued + Drawn(op))
  {
    hide SoundDb, Enabled, EffectOf, SoundEffect, OnResources;
    if OnResources(op) {
      ResourceEffectSound(cat, db, op);
    } else {
      RigEffectSound(cat, db, op);
    }
  }

  /** One operation keeps memory and disk sound, whether its save succeeds, fails or never happens. */
  lemma StepSound(cat: Catalog, db: Db, op: Op, saved: bool)
    requires SoundDb(db) && Enabled(db, op)
    ensures SoundDb(Step(cat, db, op, saved))
  {
    hide Sound, EffectOf;
    EffectSound(cat, db, op);
    IssuedGrows(db.memory, db.issued, Drawn(op));
    IssuedGrows(db.disk, db.issued, Drawn(op));
  }

  /** The invariant holds after every run of operations, failed saves and restarts. */
  lemma {:induction false} RunSound(cat: Catalog, db: Db, events: seq<Event>)
    requires SoundDb(db) && Possible(cat, db, events)
    ensures SoundDb(Run(cat, db, events))
    decreases |events|
  {
    if events != [] {
      StepSound(cat, db, events[0].op, events[0].saved);
      RunSound(cat, Step(cat, db, events[0].op, events[0].saved), events[1..]);
    }
  }

  lemma NewStoreSound()
    ensures SoundDb(NewStore())
  {
    assert Ranked(map[], map[]);
  }

  // ----- what the invariant gives -----

  ghost predicate FallbackPath(sheets: map<Id, Sheet>, path: seq<Id>) {
    && |path| > 0
    && (forall i :: 0 <= i < |path| ==> path[i] in sheets)
    && (forall i :: 0 <= i < |path| - 1 ==> sheets[path[i]].fallbackId == path[i + 1])
  }

  lemma {:induction false} RankFalls(sheets: map<Id, Sheet>, rank: map<Id, nat>, path: seq<Id>)
    requires Ranked(sheets, rank) && FallbackPath(sheets, path) && |path| > 1
    ensures rank[path[|path| - 1]] < rank[path[0]]
  {
    assert sheets[path[0]].fallbackId == path[1];
    if |path| > 2 {
      var rest := path[1..];
      assert forall i :: 0 <= i < |rest| ==> rest[i] == path[i + 1];
      assert FallbackPath(sheets, rest);
      RankFalls(sheets, rank, rest);
    }
  }

  /** In every reachable store, following fallbacks never returns to where it started. */
  lemma NoFallbackCycle(cat: Catalog, events: seq<Event>, path: seq<Id>)
    requires Possible(cat, NewStore(), events)
    requires FallbackPath(Run(cat, NewStore(), events).memory.sheets, path) && |path| > 1
    ensures path[0] != path[|path| - 1]
  {
    hide Possible, Run;
    NewStoreSound();
    RunSound(cat, NewStore(), events);
    var sheets := Run(cat, NewStore(), events).memory.sheets;
    var rank :| Ranked(sheets, rank);
    RankFalls(sheets, rank, path);
  }

  lemma SoundServes(cat: Catalog, s: State, rigId: Id, issued: set<Id>)
    requires Sound(s, issued) && rigId in s.rigs
    ensures if NothingStarts(cat, s, rigId) then Serve(cat, s, rigId).CannotStart? else Serve(cat, s, rigId).Served?
  {
    hide Acyclic, Queues, NamesDiffer, SchedulesResolve, Keyed, ServedMining, Starts;
    KeysKnown(s, issued);
    assert RigResolves(s, s.rigs[rigId]);
    if s.rigs[rigId].desired.sheetId != "" {
      assert SheetResolves(s, s.sheets[s.rigs[rigId].desired.sheetId]);
    }
  }

  /** A rig is assigned a sheet whose miner cannot start. */
  predicate NothingStarts(cat: Catalog, s: State, rigId: Id) {
    rigId in s.rigs && s.rigs[rigId].desired.sheetId in s.sheets
        && !Starts(cat, CloseOver(s, s.sheets[s.rigs[rigId].desired.sheetId]))
  }

  /**
   In every reachable store, every enrolled rig is served if and only if its miner can start: its
   sheet and fallback exist.
   */
  lemma EveryRigIsServed(cat: Catalog, events: seq<Event>, rigId: Id)
    requires Possible(cat, NewStore(), events)
    requires rigId in Run(cat, NewStore(), events).memory.rigs
    ensures var s := Run(cat, NewStore(), events).memory;
            if NothingStarts(cat, s, rigId) then Serve(cat, s, rigId).CannotStart? else Serve(cat, s, rigId).Served?
  {
    hide Sound, Serve, Possible, Run, NothingStarts;
    NewStoreSound();
    RunSound(cat, NewStore(), events);
    SoundServes(cat, Run(cat, NewStore(), events).memory, rigId, Run(cat, NewStore(), events).issued);
  }

  /** In every reachable store a rig has at most one smart tune pending or running. */
  lemma NeverTwoTunes(cat: Catalog, events: seq<Event>, rigId: Id)
    requires Possible(cat, NewStore(), events)
    requires rigId in Run(cat, NewStore(), events).memory.rigs
    ensures OneOpen(Run(cat, NewStore(), events).memory.rigs[rigId].commands, SmartTune)
    ensures DistinctIds(Run(cat, NewStore(), events).memory.rigs[rigId].commands)
  {
    hide Possible, Run;
    NewStoreSound();
    RunSound(cat, NewStore(), events);
    RigQueue(Run(cat, NewStore(), events).memory, Run(cat, NewStore(), events).issued, rigId);
  }

  lemma RigQueue(s: State, issued: set<Id>, rigId: Id)
    requires Sound(s, issued) && rigId in s.rigs
    ensures Disciplined(s.rigs[rigId].commands, issued)
  {
    hide Acyclic, NamesDiffer, SchedulesResolve, SheetsResolve, RigsResolve, Keyed, Disciplined;
  }

  /** The bulk operation puts one command at the end of the queue of each rig it names. */
  lemma {:induction false} EnqueuedOnce(rigs: map<Id, Rig>, rigIds: seq<Id>, action: Action, profile: string,
      minted: seq<Id>, r: Id) returns (k: nat)
    requires |minted| == |rigIds| && Distinct(rigIds) && r in rigs
    ensures r in rigIds ==>
            k < |rigIds| && EnqueuedAll(rigs, rigIds, action, profile,
            minted)[r].commands == rigs[r].commands + [Queued(minted[k], action, profile)]
    ensures r !in rigIds ==> EnqueuedAll(rigs, rigIds, action, profile, minted)[r] == rigs[r]
  {
    k := 0;
    if rigIds != [] {
      var n := |rigIds| - 1;
      assert Distinct(rigIds[..n]);
      k := EnqueuedOnce(rigs, rigIds[..n], action, profile, minted[..n], r);
      assert rigIds == rigIds[..n] + [rigIds[n]];
      if rigIds[n] == r { k := n; }
    }
  }

  lemma OneMoreOpen(queue: seq<Command>, c: Command, action: Action)
    requires OneOpen(queue, action) && OpenWith(c, action)
    ensures OneOpen(queue + [c], action) <==> !HasOpen(queue, action)
  {
    var more := queue + [c];
    if HasOpen(queue, action) {
      var i :| 0 <= i < |queue| && OpenWith(queue[i], action);
      assert OpenWith(more[i], action) && OpenWith(more[|queue|], action);
    }
  }

  /**
   Driver updates have no such guarantee: the bulk operation does not look. Of the rigs that had
   at most one open, exactly those keep it that are not named, or had none.
   */
  lemma BulkDriverUpdateIff(s: State, rigIds: seq<Id>, profile: string, minted: seq<Id>, r: Id)
    requires |minted| == |rigIds| && |rigIds| > 0 && Distinct(rigIds) && forall i :: 0 <= i < |rigIds| ==>
             rigIds[i] in s.rigs
    requires r in s.rigs && OneOpen(s.rigs[r].commands, DriverUpdate)
    ensures var e := AddCommands(s, rigIds, Some(DriverUpdate), profile, minted);
            && e.Save? && r in e.next.rigs
            && (OneOpen(e.next.rigs[r].commands, DriverUpdate)
                <==> r !in rigIds || !HasOpen(s.rigs[r].commands, DriverUpdate))
  {
    hide OneOpen, HasOpen, EnqueuedAll;
    var k := EnqueuedOnce(s.rigs, rigIds, DriverUpdate, profile, minted, r);
    if r in rigIds { OneMoreOpen(s.rigs[r].commands, Queued(minted[k], DriverUpdate, profile), DriverUpdate); }
  }

  /** No fallback has a fallback of its own. */
  ghost predicate Flat(sheets: map<Id, Sheet>) {
    forall k :: k in sheets && sheets[k].fallbackId in sheets ==> sheets[sheets[k].fallbackId].fallbackId !in sheets
  }

  ghost predicate IsFallback(sheets: map<Id, Sheet>, id: Id) {
    exists k :: k in sheets && k != id && sheets[k].fallbackId == id
  }

  /**
   Saving a sheet keeps fallbacks one level deep exactly when the sheet has no fallback or
   is nobody's fallback: the second half is not checked.
   */
  lemma FlatKeptIff(cat: Catalog, s: State, v: Sheet, minted: Id, issued: set<Id>)
    requires Sound(s, issued) && Flat(s.sheets) && minted !in issued && minted != ""
    requires SaveSheet(cat, s, v, minted, true).Save?
    ensures Flat(SaveSheet(cat, s, v, minted, true).next.sheets)
       <==> (v.fallbackId == "" || v.id == "" || !IsFallback(s.sheets, v.id))
  {
    hide Sound, BumpedRigs, Fold, SecondaryAccepted;
    var next := SaveSheet(cat, s, v, minted, true).next.sheets;
    var id := if v.id == "" then minted else v.id;
    KeysKnown(s, issued);
    SoundSheets(s, issued);
    NobodyFallsBackOnNewSheet(s, minted);
    FlatPut(s.sheets, id, next[id]);
  }

  lemma SoundSheets(s: State, issued: set<Id>)
    requires Sound(s, issued)
    ensures SheetsResolve(s)
  {
    hide Acyclic, Queues, NamesDiffer, SchedulesResolve, SheetsResolve, RigsResolve, Keyed;
  }

  lemma FlatPut(sheets: map<Id, Sheet>, id: Id, v: Sheet)
    requires Flat(sheets) && "" !in sheets && id != ""
    requires id !in sheets ==> !IsFallback(sheets, id)
    requires v.fallbackId != "" ==>
             v.fallbackId in sheets && v.fallbackId != id && sheets[v.fallbackId].fallbackId == ""
    ensures Flat(sheets[id := v]) <==> (v.fallbackId == "" || !IsFallback(sheets, id))
  {
    var next := sheets[id := v];
    if v.fallbackId != "" && IsFallback(sheets, id) {
      var k :| k in sheets && k != id && sheets[k].fallbackId == id;
      assert next[k].fallbackId == id && next[id].fallbackId in next;
    }
  }
}
