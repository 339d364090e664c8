/**
 What each controller operation does to the in-memory state before it is saved.

 Checks on the spelling of names, URLs and catalog entries arrive as a verdict (`textOk`,
 `catalogOk`, ...); texts are taken as already trimmed and upper-cased. Newly drawn identifiers,
 the clock and the iteration order of Go maps are inputs.
 */
module StoreEffects {
  import opened Wrappers
  import opened Tuning
  import opened Templates
  import opened CommandQueue
  import opened StoreState

  datatype Error = NotFound | Invalid

  /** Reject and Done leave the given memory without saving it; Save hands a state to the disk. */
  datatype Effect = Reject(memory: State, error: Error) | Done(memory: State) | Save(next: State)

  /** The rigs an effect leaves in memory or hands to the disk. */
  function RigsOf(e: Effect): set<Id> {
    match e
    case Reject(m, _) => m.rigs.Keys
    case Done(m) => m.rigs.Keys
    case Save(n) => n.rigs.Keys
  }

  datatype Resource = WalletOf | PoolOf | MinerOf | SheetOf | ProfileOf

  // ----- revision bumps -----

  function BumpRig(rig: Rig): Rig {
    rig.(desired := rig.desired.(revision := rig.desired.revision + 1))
  }

  predicate SheetUses(sheet: Sheet, kind: Resource, id: Id) {
    match kind
    case WalletOf => sheet.walletId == id || sheet.secondaryWalletId == id
    case PoolOf => sheet.poolId == id || sheet.secondaryPoolId == id
    case MinerOf => sheet.minerId == id
    case _ => false
  }

  /** bumpWorkersForResourceLocked: whether a rig is told about a change of this resource. */
  predicate Affected(sheets: map<Id, Sheet>, rig: Rig, kind: Resource, id: Id) {
    match kind
    case SheetOf => rig.desired.sheetId == id
        || (rig.desired.sheetId in sheets && sheets[rig.desired.sheetId].fallbackId == id)
    case ProfileOf => rig.desired.profileId == id
    case _ =>
      && rig.desired.sheetId in sheets
      && var sheet := sheets[rig.desired.sheetId];
         SheetUses(sheet, kind, id) || (sheet.fallbackId in sheets && SheetUses(sheets[sheet.fallbackId], kind, id))
  }

  function BumpedRigs(s: State, kind: Resource, id: Id): map<Id, Rig> {
    map r | r in s.rigs :: if Affected(s.sheets, s.rigs[r], kind, id) then BumpRig(s.rigs[r]) else s.rigs[r]
  }

  function Bumped(s: State, kind: Resource, id: Id): State {
    s.(rigs := BumpedRigs(s, kind, id))
  }

  // ----- saving resources -----

  function SaveFarm(s: State, value: Farm, minted: Id, textOk: bool): (e: Effect)
    ensures RigsOf(e) == s.rigs.Keys
  {
    if !textOk then Reject(s, Invalid)
    else if value.id == "" then Save(s.(farms := s.farms[minted := value.(id := minted)]))
    else if value.id in s.farms then Save(s.(farms := s.farms[value.id := value]))
    else Reject(s, NotFound)
  }

  function SaveWallet(s: State, value: Wallet, minted: Id, textOk: bool): (e: Effect)
    ensures RigsOf(e) == s.rigs.Keys
  {
    if !textOk then Reject(s, Invalid)
    else if value.id != "" && value.id !in s.wallets then Reject(s, NotFound)
    else
      var id := if value.id == "" then minted else value.id;
      Save(Bumped(s.(wallets := s.wallets[id := value.(id := id)]), WalletOf, id))
  }

  function SavePool(s: State, value: Pool, minted: Id, textOk: bool): (e: Effect)
    ensures RigsOf(e) == s.rigs.Keys
  {
    if !textOk then Reject(s, Invalid)
    else if value.id == "" then Save(s.(pools := s.pools[minted := value.(id := minted)]))
    else if value.id !in s.pools then Reject(s, NotFound)
    else
      var previous := s.pools[value.id];
      var stored := s.(pools := s.pools[value.id := value]);
      Save(if previous.url != value.url
          || previous.password != value.password then Bumped(stored, PoolOf, value.id) else stored)
  }

  /** The first stored miner of the same catalog entry other than the value itself, in iteration order. */
  function CatalogTwin(miners: map<Id, Miner>, value: Miner, order: seq<Id>): Option<Id> {
    if order == [] then None
    else if order[0] in miners && miners[order[0]].catalogId == value.catalogId
        && miners[order[0]].id != value.id then Some(miners[order[0]].id)
    else CatalogTwin(miners, value, order[1..])
  }

  /** What an edited miner keeps from its previous definition. */
  function Inherit(value: Miner, previous: Miner): Miner {
    value.(catalogId := if value.catalogId == "" then previous.catalogId else value.catalogId,
           binarySha256 := if value.managedBinary && value.binarySha256 == ""
               && value.binaryName == previous.binaryName then previous.binarySha256 else value.binarySha256,
           packageSha256 := if value.managedBinary && value.packageSha256 == ""
               && value.entryPoint == previous.entryPoint then previous.packageSha256 else value.packageSha256)
  }

  function SaveMiner(s: State, value: Miner, minted: Id, textOk: bool, order: seq<Id>): (e: Effect)
    ensures RigsOf(e) == s.rigs.Keys
  {
    var twin := if value.catalogId == "" then None else CatalogTwin(s.miners, value, order);
    if !textOk || (twin.Some? && value.id != "") then Reject(s, Invalid)
    else
      var named := if value.id == "" && twin.Some? then value.(id := twin.value) else value;
      if named.id != "" && named.id !in s.miners then Reject(s, NotFound)
      else
        var stored := if named.id == "" then named.(id := minted) else Inherit(named, s.miners[named.id]);
        Save(Bumped(s.(miners := s.miners[stored.id := stored]), MinerOf, stored.id))
  }

  predicate HasSecondary(v: Sheet) {
    v.secondaryDeviceType != "" || v.secondaryCoin != "" || v.secondaryAlgorithm != "" || v.secondaryWalletId != ""
        || v.secondaryPoolId != ""
  }

  predicate ReferencesExist(s: State, v: Sheet) {
    v.walletId in s.wallets && v.poolId in s.pools && v.minerId in s.miners
  }

  /** The checks on an automatic fallback. */
  predicate FallbackAccepted(s: State, v: Sheet) {
    v.fallbackId == "" ||
    (&& v.fallbackId in s.sheets
     && !(v.id != "" && s.sheets[v.fallbackId].id == v.id)
     && v.minerId in s.miners && s.miners[v.minerId].catalogId == EPIC
     && Fold(v.deviceType) == Fold(s.sheets[v.fallbackId].deviceType)
     && s.sheets[v.fallbackId].fallbackId == "")
  }

  predicate SecondaryAccepted(s: State, v: Sheet) {
    !HasSecondary(v) ||
    (&& v.secondaryWalletId in s.wallets && v.secondaryPoolId in s.pools
     && v.secondaryCoin != "" && v.secondaryAlgorithm != ""
     && (v.secondaryDeviceType == "CPU" || v.secondaryDeviceType == "GPU")
     && v.secondaryDeviceType != v.deviceType
     && Fold(v.secondaryCoin) == Fold(s.wallets[v.secondaryWalletId].coin)
     && v.minerId in s.miners && s.miners[v.minerId].catalogId == SRB)
  }

  predicate DelaysAccepted(v: Sheet) {
    0 <= v.failoverAfter <= 600 && 0 <= v.returnAfter <= 600
  }

  function SaveSheet(cat: Catalog, s: State, value: Sheet, minted: Id, textOk: bool): (e: Effect)
    ensures RigsOf(e) == s.rigs.Keys
  {
    if !textOk || !ReferencesExist(s, value) then Reject(s, Invalid)
    else
      var coded := value.(algorithm := cat.forCoin(s.miners[value.minerId].catalogId, value.coin, value.algorithm));
      if !DelaysAccepted(coded) || !FallbackAccepted(s, coded) || !SecondaryAccepted(s, coded) then Reject(s, Invalid)
      else
        var coined := coded.(coin := if coded.coin == "" then s.wallets[coded.walletId].coin else coded.coin);
        if Fold(coined.coin) != Fold(s.wallets[coded.walletId].coin) then Reject(s, Invalid)
        else if coined.id != "" && coined.id !in s.sheets then Reject(s, NotFound)
        else
          var id := if coined.id == "" then minted else coined.id;
          Save(Bumped(s.(sheets := s.sheets[id := coined.(id := id)]), SheetOf, id))
  }

  predicate SettingsAccepted(settings: seq<Setting>) {
    forall i :: 0 <= i < |settings| ==>
      && 0 <= settings[i].fan <= 100 && settings[i].power >= 0
      && !(settings[i].coreClock > 0 && settings[i].coreOffset != 0)
      && !(settings[i].memoryClock > 0 && settings[i].memoryOffset != 0)
      && (settings[i].selector == "*" || ParseInt(settings[i].selector) >= 0)
  }

  function SaveProfile(s: State, value: Profile, minted: Id, textOk: bool): (e: Effect)
    ensures RigsOf(e) == s.rigs.Keys
  {
    if !textOk || !(value.vendor == "NVIDIA" || value.vendor == "AMD")
        || !SettingsAccepted(value.settings) then Reject(s, Invalid)
    else if value.id != "" && value.id !in s.profiles then Reject(s, NotFound)
    else
      var id := if value.id == "" then minted else value.id;
      Save(Bumped(s.(profiles := s.profiles[id := value.(id := id)]), ProfileOf, id))
  }

  // ----- assigning rigs -----

  datatype Assignment = Assignment(name: string, farmId: Id, sheetId: Id, profileId: Id, watchdog: Watchdog,
      autofan: Autofan)

  predicate AutofanAccepted(a: Autofan) {
    !a.enabled || (a.target > 0.0 && 0 <= a.minimum <= a.maximum <= 100)
  }

  predicate WatchdogAccepted(w: Watchdog) {
    !w.enabled || (0.0 <= w.maxTemperature <= 110.0 && w.minHashrate >= 0.0
        && (w.minHashrate > 0.0 ==> w.restartAfter >= 10) && w.rebootAfter >= 0)
  }

  predicate NameTaken(rigs: map<Id, Rig>, name: string, except_: Id) {
    exists r :: r in rigs && r != except_ && Fold(rigs[r].name) == Fold(name)
  }

  predicate Accepts(s: State, rigId: Id, a: Assignment) {
    && (a.farmId != "" ==> a.farmId in s.farms)
    && (a.sheetId != "" ==> a.sheetId in s.sheets)
    && (a.profileId != "" ==> a.profileId in s.profiles)
    && AutofanAccepted(a.autofan) && WatchdogAccepted(a.watchdog)
    && (a.name != "" ==> !NameTaken(s.rigs, a.name, rigId))
  }

  predicate DesiredChanges(d: Desired, a: Assignment) {
    || d.sheetId != a.sheetId || d.profileId != a.profileId
    || NormalWatchdog(d.watchdog) != NormalWatchdog(a.watchdog)
    || NormalAutofan(d.autofan) != NormalAutofan(a.autofan)
  }

  function Assigned(rig: Rig, a: Assignment): Rig {
    rig.(name := if a.name != "" then a.name else rig.name,
         farmId := a.farmId,
         desired := Desired(if DesiredChanges(rig.desired, a) then rig.desired.revision + 1 else rig.desired.revision,
                            a.sheetId, a.profileId, NormalWatchdog(a.watchdog), NormalAutofan(a.autofan)))
  }

  function AssignWorker(s: State, rigId: Id, a: Assignment): (e: Effect)
    ensures RigsOf(e) == s.rigs.Keys
  {
    if rigId !in s.rigs then Reject(s, NotFound)
    else if !Accepts(s, rigId, a) then Reject(s, Invalid)
    else Save(s.(rigs := s.rigs[rigId := Assigned(s.rigs[rigId], a)]))
  }

  function PowerBumped(rigs: map<Id, Rig>): map<Id, Rig> {
    map r | r in rigs :: if |rigs[r].telemetry.gpus| != 0 then BumpRig(rigs[r]) else rigs[r]
  }

  function SetPowerPolicy(s: State, watts: int): (e: Effect)
    ensures RigsOf(e) == s.rigs.Keys
  {
    if watts < 0 || watts > 600 then Reject(s, Invalid)
    else if s.maxPowerW == watts then Done(s)
    else Save(s.(maxPowerW := watts, rigs := PowerBumped(s.rigs)))
  }

  // ----- deleting -----

  datatype Kind = Farms | Wallets | Pools | Miners | Sheets | Profiles | Schedules | Unknown

  predicate RigRefers(s: State, kind: Kind, id: Id) {
    exists r :: r in s.rigs && (match kind
                                case Farms => s.rigs[r].farmId == id
                                case Sheets => s.rigs[r].desired.sheetId == id
                                case Profiles => s.rigs[r].desired.profileId == id
                                case _ => false)
  }

  predicate SheetRefers(s: State, kind: Kind, id: Id) {
    exists x :: x in s.sheets && (match kind
                                  case Wallets => s.sheets[x].walletId == id || s.sheets[x].secondaryWalletId == id
                                  case Pools => s.sheets[x].poolId == id || s.sheets[x].secondaryPoolId == id
                                  case Miners => s.sheets[x].minerId == id
                                  case Sheets => s.sheets[x].fallbackId == id
                                  case _ => false)
  }

  predicate ScheduleRefers(s: State, kind: Kind, id: Id) {
    kind.Sheets? && exists x :: x in s.schedules && s.schedules[x].sheetId == id
  }

  predicate Exists(s: State, kind: Kind, id: Id) {
    match kind
    case Farms => id in s.farms
    case Wallets => id in s.wallets
    case Pools => id in s.pools
    case Miners => id in s.miners
    case Sheets => id in s.sheets
    case Profiles => id in s.profiles
    case Schedules => id in s.schedules
    case Unknown => false
  }

  function Without(s: State, kind: Kind, id: Id): (r: State)
    ensures r.rigs == s.rigs
  {
    match kind
    case Farms => s.(farms := s.farms - {id})
    case Wallets => s.(wallets := s.wallets - {id})
    case Pools => s.(pools := s.pools - {id})
    case Miners => s.(miners := s.miners - {id})
    case Sheets => s.(sheets := s.sheets - {id})
    case Profiles => s.(profiles := s.profiles - {id})
    case Schedules => s.(schedules := s.schedules - {id})
    case Unknown => s
  }

  /**
   filesOk: whether the package files of a deleted miner could be removed. The entry is gone from
   memory either way.
   */
  function Delete(s: State, kind: Kind, id: Id, filesOk: bool): (e: Effect)
    ensures RigsOf(e) == s.rigs.Keys
  {
    if !Exists(s, kind, id) then Reject(s, NotFound)
    else if RigRefers(s, kind, id) || SheetRefers(s, kind, id) || ScheduleRefers(s, kind, id) then Reject(s, Invalid)
    else if kind.Miners? && !filesOk then Reject(Without(s, kind, id), Invalid)
    else Save(Without(s, kind, id))
  }

  // ----- quick setup -----

  datatype QuickInput = QuickInput(
    name: string, deviceType: string, coin: string, algorithm: string, walletAddress: string, walletTemplate: string,
    poolUrl: string, poolHost: string, poolPassword: string,
    minerId: Id, entry: Miner,
    secondaryCoin: string, secondaryDeviceType: string, secondaryAlgorithm: string,
    secondaryWalletAddress: string, secondaryPoolUrl: string, secondaryPoolHost: string, secondaryPoolPassword: string,
    rigIds: seq<Id>)

  /**
   The verdicts reached before anything is stored, on the catalog entry, and after the miner
   may have been stored; listed: whether the miner is a catalog entry at all.
   */
  datatype QuickChecks = QuickChecks(inputOk: bool, entryOk: bool, minerOk: bool, listed: bool)

  datatype QuickFresh = QuickFresh(miner: Id, wallet: Id, pool: Id, wallet2: Id, pool2: Id, sheet: Id)

  datatype QuickOrder = QuickOrder(miners: seq<Id>, wallets: seq<Id>, pools: seq<Id>)

  predicate EntryMatches(entry: Miner, m: Miner) {
    if m.catalogId != "" then m.catalogId == entry.catalogId
    else Fold(m.name) == Fold(entry.name) && Fold(m.binaryName) == Fold(entry.binaryName)
  }

  function FindEntry(miners: map<Id, Miner>, entry: Miner, order: seq<Id>): Option<Miner> {
    if order == [] then None
    else if order[0] in miners && EntryMatches(entry, miners[order[0]]) then Some(miners[order[0]])
    else FindEntry(miners, entry, order[1..])
  }

  function FindWallet(wallets: map<Id, Wallet>, coin: string, address: string, order: seq<Id>): Option<Wallet> {
    if order == [] then None
    else if order[0] in wallets && Fold(wallets[order[0]].coin) == Fold(coin)
        && wallets[order[0]].address == address then Some(wallets[order[0]])
    else FindWallet(wallets, coin, address, order[1..])
  }

  function FindPool(pools: map<Id, Pool>, url: string, password: string, order: seq<Id>): Option<Pool> {
    if order == [] then None
    else if order[0] in pools && pools[order[0]].url == url
        && pools[order[0]].password == password then Some(pools[order[0]])
    else FindPool(pools, url, password, order[1..])
  }

  function WithWallet(s: State, coin: string, address: string, order: seq<Id>, minted: Id): (r: (State, Id))
    ensures r.0.rigs == s.rigs
  {
    var found := FindWallet(s.wallets, coin, address, order);
    if found.Some? && found.value.id != "" then (s, found.value.id)
    else (s.(wallets := s.wallets[minted := Wallet(minted, coin + " Wallet", coin, address)]), minted)
  }

  function WithPool(s: State, url: string, host: string, password: string, order: seq<Id>,
      minted: Id): (r: (State, Id))
    ensures r.0.rigs == s.rigs
  {
    var found := FindPool(s.pools, url, password, order);
    if found.Some? && found.value.id != "" then (s, found.value.id)
    else (s.(pools := s.pools[minted := Pool(minted, host, url, password)]), minted)
  }

  predicate QuickSecondary(q: QuickInput) {
    q.secondaryDeviceType != "" || q.secondaryCoin != "" || q.secondaryWalletAddress != "" || q.secondaryPoolUrl != ""
        || q.secondaryAlgorithm != ""
  }

  function Redirected(rigs: map<Id, Rig>, rigIds: seq<Id>, sheetId: Id): (r: map<Id, Rig>)
    ensures r.Keys == rigs.Keys
  {
    if rigIds == [] then rigs
    else
      var front := Redirected(rigs, rigIds[..|rigIds| - 1], sheetId);
      var id := rigIds[|rigIds| - 1];
      if id in front then front[id := BumpRig(front[id].(desired := front[id].desired.(sheetId := sheetId)))] else front
  }

  function QuickSheet(q: QuickInput, id: Id, wallet: Id, pool: Id, miner: Id, wallet2: Id, pool2: Id): Sheet {
    Sheet(id, q.name, q.deviceType, q.coin, q.algorithm, wallet, pool, miner,
          q.secondaryDeviceType, q.secondaryCoin, q.secondaryAlgorithm, wallet2, pool2,
          "", "", q.walletTemplate, "", [], "", 0, 0)
  }

  /** The stored miner a quick setup uses, and the memory once it is there. */
  function WithMiner(s: State, q: QuickInput, order: seq<Id>, minted: Id): (State, Miner) {
    if q.minerId != "" then (s, Get(s.miners, q.minerId, NO_MINER))
    else
      var found := FindEntry(s.miners, q.entry, order);
      if found.Some? && found.value.id != "" then (s, found.value)
      else
        var created := q.entry.(id := minted);
        (s.(miners := s.miners[minted := created]), created)
  }

  /** The memory with every resource of the sheet in it, and what the sheet refers to. */
  datatype Picked = Picked(state: State, wallet: Id, pool: Id, wallet2: Id, pool2: Id)

  function PickPrimary(s: State, q: QuickInput, minted: QuickFresh, order: QuickOrder): (r: Picked)
    ensures r.state.rigs == s.rigs
  {
    var (s1, wallet) := WithWallet(s, q.coin, q.walletAddress, order.wallets, minted.wallet);
    var (s2, pool) := WithPool(s1, q.poolUrl, q.poolHost, q.poolPassword, order.pools, minted.pool);
    Picked(s2, wallet, pool, "", "")
  }

  function PickSecondary(p: Picked, q: QuickInput, minted: QuickFresh, order: QuickOrder): (r: Picked)
    ensures r.state.rigs == p.state.rigs
  {
    if QuickSecondary(q) then
      var (s1, wallet) :=
          WithWallet(p.state, q.secondaryCoin, q.secondaryWalletAddress, order.wallets + [minted.wallet],
          minted.wallet2);
      var (s2, pool) :=
          WithPool(s1, q.secondaryPoolUrl, q.secondaryPoolHost, q.secondaryPoolPassword, order.pools + [minted.pool],
          minted.pool2);
      p.(state := s2, wallet2 := wallet, pool2 := pool)
    else p
  }

  function WithQuickSheet(p: Picked, q: QuickInput, minerId: Id, id: Id): State {
    var sheet := QuickSheet(q, id, p.wallet, p.pool, minerId, p.wallet2, p.pool2);
    p.state.(sheets := p.state.sheets[id := sheet], rigs := Redirected(p.state.rigs, q.rigIds, id))
  }

  function QuickSetup(s: State, q: QuickInput, checks: QuickChecks, minted: QuickFresh, order: QuickOrder): (e: Effect)
    ensures RigsOf(e) == s.rigs.Keys
  {
    if !checks.inputOk || exists i :: 0 <= i < |q.rigIds| && q.rigIds[i] !in s.rigs then Reject(s, Invalid)
    else if q.minerId != "" && q.minerId !in s.miners then Reject(s, Invalid)
    else if q.minerId == "" && !checks.entryOk then Reject(s, Invalid)
    else
      var (s1, miner) := WithMiner(s, q, order.miners, minted.miner);
      if !checks.minerOk || (checks.listed && QuickSecondary(q) && miner.catalogId != SRB) then Reject(s1, Invalid)
      else Save(WithQuickSheet(PickSecondary(PickPrimary(s1, q, minted, order), q, minted, order), q, miner.id,
          minted.sheet))
  }

  // ----- schedules -----

  predicate ScheduleActionAccepted(v: Schedule) {
    match v.action
    case ApplySheet => v.sheetId != ""
    case Send(a) => a in {Start, Stop, Restart, Reboot, Shutdown}
  }

  function SaveSchedule(s: State, value: Schedule, minted: Id, textOk: bool): (e: Effect)
    ensures RigsOf(e) == s.rigs.Keys
  {
    if !textOk || !ScheduleActionAccepted(value) || |value.rigIds| == 0 then Reject(s, Invalid)
    else if exists i :: 0 <= i < |value.rigIds| && value.rigIds[i] !in s.rigs then Reject(s, Invalid)
    else if value.sheetId != "" && value.sheetId !in s.sheets then Reject(s, Invalid)
    else if value.id != "" && value.id !in s.schedules then Reject(s, NotFound)
    else
      var id := if value.id == "" then minted else value.id;
      var ran := if value.id == "" then value.lastRunMinute else s.schedules[value.id].lastRunMinute;
      Save(s.(schedules := s.schedules[id := value.(id := id, lastRunMinute := ran)]))
  }

  datatype Moment = Moment(minute: string, time: string, weekday: int)

  predicate Due(v: Schedule, now: Moment) {
    v.enabled && v.time == now.time && v.lastRunMinute != now.minute && now.weekday in v.days
  }

  /** Identifiers for the commands a schedule queues: one per schedule and position. */
  type Tokens = map<(Id, nat), Id>

  function Token(tokens: Tokens, schedule: Id, position: nat): Id {
    if (schedule, position) in tokens then tokens[(schedule, position)] else ""
  }

  function Visit(rig: Rig, v: Schedule, id: Id): Rig {
    match v.action
    case ApplySheet => BumpRig(rig.(desired := rig.desired.(sheetId := v.sheetId)))
    case Send(a) => rig.(commands := rig.commands + [Queued(id, a, "")])
  }

  /** The rigs after the first n rigs of a schedule were visited. */
  function Visited(rigs: map<Id, Rig>, v: Schedule, key: Id, n: nat, tokens: Tokens): (r: map<Id, Rig>)
    requires n <= |v.rigIds|
    ensures r.Keys == rigs.Keys
  {
    if n == 0 then rigs
    else
      var front := Visited(rigs, v, key, n - 1, tokens);
      var id := v.rigIds[n - 1];
      if id in front then front[id := Visit(front[id], v, Token(tokens, key, n - 1))] else front
  }

  function RunOne(s: State, key: Id, now: Moment, tokens: Tokens): State {
    if key in s.schedules && Due(s.schedules[key], now) then
      var v := s.schedules[key];
      s.(rigs := Visited(s.rigs, v, key, |v.rigIds|, tokens),
          schedules := s.schedules[key := v.(lastRunMinute := now.minute)])
    else s
  }

  function RunAll(s: State, order: seq<Id>, now: Moment, tokens: Tokens): (r: State)
    ensures r.rigs.Keys == s.rigs.Keys
  {
    if order == [] then s else RunOne(RunAll(s, order[..|order| - 1], now, tokens), order[|order| - 1], now, tokens)
  }

  predicate AnyDue(s: State, now: Moment) {
    exists k :: k in s.schedules && Due(s.schedules[k], now)
  }

  function RunSchedules(s: State, now: Moment, order: seq<Id>, tokens: Tokens): (e: Effect)
    ensures RigsOf(e) == s.rigs.Keys
  {
    if AnyDue(s, now) then Save(RunAll(s, order, now, tokens)) else Done(s)
  }

  // ----- rigs -----

  const FRESH_RIG :=
      Rig("", "", "", Desired(0, "", "", NO_WATCHDOG, NO_AUTOFAN), Telemetry(None, [], false, false, false), [])

  function Enroll(s: State, name: string, minted: Id, authorized: bool): Effect {
    if name == "" || !authorized || NameTaken(s.rigs, name, "") then Reject(s, Invalid)
    else Save(s.(rigs := s.rigs[minted := FRESH_RIG.(id := minted, name := name)]))
  }

  function Dropped(ids: seq<Id>, id: Id): (r: seq<Id>)
    ensures forall i :: 0 <= i < |r| ==> r[i] != id && r[i] in ids
  {
    if ids == [] then []
    else
      var n := |ids| - 1;
      Dropped(ids[..n], id) + (if ids[n] != id then [ids[n]] else [])
  }

  function Unscheduled(v: Schedule, rigId: Id): Schedule {
    var left := Dropped(v.rigIds, rigId);
    v.(rigIds := left, enabled := v.enabled && left != [])
  }

  function UnscheduledAll(schedules: map<Id, Schedule>, rigId: Id): map<Id, Schedule> {
    map k | k in schedules :: Unscheduled(schedules[k], rigId)
  }

  function DeleteRig(s: State, rigId: Id): Effect {
    if rigId !in s.rigs then Reject(s, NotFound)
    else Save(s.(rigs := s.rigs - {rigId}, schedules := UnscheduledAll(s.schedules, rigId)))
  }

  /** recorded: whether the telemetry file could be written; if not, the new metrics stay in memory unsaved. */
  function Heartbeat(s: State, rigId: Id, telemetry: Telemetry, recorded: bool): (e: Effect)
    ensures RigsOf(e) == s.rigs.Keys
  {
    if rigId !in s.rigs then Reject(s, NotFound)
    else
      var next := s.(rigs := s.rigs[rigId := s.rigs[rigId].(telemetry := telemetry)]);
      if recorded then Save(next) else Reject(next, Invalid)
  }

  /** An uploaded package becomes the miner's binary unless the definition changed during the upload. */
  function UploadMiner(s: State, minerId: Id, seen: Miner, binary: string, package: string, fileOk: bool): (e: Effect)
    ensures RigsOf(e) == s.rigs.Keys
  {
    if minerId !in s.miners then Reject(s, NotFound)
    else if s.miners[minerId] != seen || !fileOk then Reject(s, Invalid)
    else
      var m := s.miners[minerId].(binarySha256 := binary, packageSha256 := package, managedBinary := true);
      Save(Bumped(s.(miners := s.miners[minerId := m]), MinerOf, minerId))
  }

  // ----- commands -----

  datatype TuneRequest = TuneRequest(balanced: bool, maxPowerW: int, maxTemperature: real)

  datatype Request = Request(action: Option<Action>, profile: string, tune: Option<TuneRequest>)

  predicate Online(t: Telemetry, now: int) {
    t.lastHeartbeat.Some? && now - t.lastHeartbeat.value < 30
  }

  predicate TuneAccepted(t: Option<TuneRequest>) {
    t.Some? && t.value.balanced && t.value.maxPowerW >= 0 && 60.0 <= t.value.maxTemperature <= 85.0
  }

  predicate TelemetrySuffices(gpus: seq<Gpu>) {
    forall i :: 0 <= i < |gpus| ==> gpus[i].powerDraw > 0.0 && gpus[i].hashrate > 0.0
  }

  predicate SharedProfile(rigs: map<Id, Rig>, profileId: Id, except_: Id) {
    exists r :: r in rigs && r != except_ && rigs[r].desired.profileId == profileId
  }

  predicate TunePossible(s: State, rigId: Id)
    requires rigId in s.rigs
  {
    var rig := s.rigs[rigId];
    && |rig.telemetry.gpus| != 0 && rig.telemetry.minerRunning && rig.telemetry.smartTuneSupported
    && TelemetrySuffices(rig.telemetry.gpus)
    && rig.desired.profileId in s.profiles
    && s.profiles[rig.desired.profileId].vendor == "NVIDIA"
    && !SharedProfile(s.rigs, s.profiles[rig.desired.profileId].id, rigId)
    && !HasOpen(rig.commands, SmartTune)
  }

  /**
   textOk: the verdict on shell text and driver package names; guardOk: on the driver performance
   guard and GPU vendor.
   */
  predicate CommandAccepted(s: State, rigId: Id, request: Request, now: int, textOk: bool, guardOk: bool)
    requires rigId in s.rigs
  {
    var rig := s.rigs[rigId];
    && textOk && request.action.Some?
    && match request.action.value
       case SmartTune => TuneAccepted(request.tune) && TunePossible(s, rigId)
       case Shell => Online(rig.telemetry, now)
       case DriverList => Online(rig.telemetry, now) && rig.telemetry.driverUpdateSupported && guardOk
       case DriverUpdate => Online(rig.telemetry, now) && rig.telemetry.driverUpdateSupported && guardOk
           && !HasOpen(rig.commands, DriverUpdate)
       case _ => true
  }

  function Enqueue(rig: Rig, id: Id, action: Action, profile: string): Rig {
    rig.(commands := rig.commands + [Queued(id, action, profile)])
  }

  function AddCommand(s: State, rigId: Id, request: Request, minted: Id, now: int, textOk: bool,
      guardOk: bool): (e: Effect)
    ensures RigsOf(e) == s.rigs.Keys
  {
    if rigId !in s.rigs then
      var readable := textOk && request.action.Some?
                      && (request.action.value.SmartTune? ==> TuneAccepted(request.tune));
      Reject(s, if readable then NotFound else Invalid)
    else if !CommandAccepted(s, rigId, request, now, textOk, guardOk) then Reject(s, Invalid)
    else
      var profile := if request.action.value.SmartTune? then s.profiles[s.rigs[rigId].desired.profileId].id
          else request.profile;
      Save(s.(rigs := s.rigs[rigId := Enqueue(s.rigs[rigId], minted, request.action.value, profile)]))
  }

  function EnqueuedAll(rigs: map<Id, Rig>, rigIds: seq<Id>, action: Action, profile: string,
      minted: seq<Id>): (r: map<Id, Rig>)
    requires |minted| == |rigIds|
    ensures r.Keys == rigs.Keys
  {
    if rigIds == [] then rigs
    else
      var n := |rigIds| - 1;
      var front := EnqueuedAll(rigs, rigIds[..n], action, profile, minted[..n]);
      if rigIds[n] in front then front[rigIds[n] := Enqueue(front[rigIds[n]], minted[n], action, profile)] else front
  }

  function AddCommands(s: State, rigIds: seq<Id>, action: Option<Action>, profile: string, minted: seq<Id>): (e: Effect)
    requires |minted| == |rigIds|
    ensures RigsOf(e) == s.rigs.Keys
  {
    if action.None? || action.value.Shell? || action.value.SmartTune? || |rigIds| == 0 then Reject(s, Invalid)
    else if exists i :: 0 <= i < |rigIds| && rigIds[i] !in s.rigs then Reject(s, Invalid)
    else Save(s.(rigs := EnqueuedAll(s.rigs, rigIds, action.value, profile, minted)))
  }

  function NextCommand(s: State, rigId: Id, now: int): (e: Effect)
    ensures RigsOf(e) == s.rigs.Keys
  {
    if rigId !in s.rigs then Reject(s, NotFound)
    else
      var queue := s.rigs[rigId].commands;
      var i := FirstLeasable(queue, now);
      if i == |queue| then Reject(s, NotFound)
      else Save(s.(rigs := s.rigs[rigId := s.rigs[rigId].(commands := queue[i := Leased(queue[i], now)])]))
  }

  /** Power limits by selector, the last entry for a selector winning. */
  function TunedLimits(tuned: seq<Setting>): map<string, int> {
    if tuned == [] then map[]
    else TunedLimits(tuned[..|tuned| - 1])[tuned[|tuned| - 1].selector := tuned[|tuned| - 1].power]
  }

  predicate TunedAccepted(tuned: seq<Setting>) {
    tuned != [] && forall i :: 0 <= i < |tuned| ==> tuned[i].selector != "" && tuned[i].power > 0
  }

  /**
   One pass over the stored settings: wildcards lose their limit, and the first setting of each
   tuned selector takes its limit.
   */
  function Retuned(settings: seq<Setting>, limits: map<string, int>): (seq<Setting>, map<string, int>) {
    if settings == [] then ([], limits)
    else
      var n := |settings| - 1;
      var (front, left) := Retuned(settings[..n], limits);
      var s := settings[n];
      if IsWildcard(s.selector) then (front + [s.(power := 0)], left)
      else if s.selector in left then (front + [s.(power := left[s.selector])], left - {s.selector})
      else (front + [s], left)
  }

  /** Settings for the selectors no stored setting had, in iteration order. */
  function Appended(left: map<string, int>, order: seq<string>): seq<Setting> {
    if order == [] then []
    else
      var n := |order| - 1;
      Appended(left, order[..n]) + (if order[n] in left then [Setting(order[n], 0, 0, 0, 0, left[order[n]], 0)] else [])
  }

  function Capped(settings: seq<Setting>, maximum: int): (r: seq<Setting>)
    ensures |r| == |settings|
  {
    if maximum <= 0 then settings
    else seq(|settings|, i requires 0 <= i < |settings| =>
               if settings[i].power == 0
                   || settings[i].power > maximum then settings[i].(power := maximum) else settings[i])
  }

  function TunedProfile(p: Profile, tuned: seq<Setting>, order: seq<string>, maximum: int): Profile {
    var (body, left) := Retuned(p.settings, TunedLimits(tuned));
    p.(settings := Capped(body + Appended(left, order), maximum))
  }

  predicate TuneLands(s: State, rigId: Id, c: Command, result: Result)
    requires rigId in s.rigs
  {
    && c.profile in s.profiles && s.rigs[rigId].desired.profileId == c.profile
    && !SharedProfile(s.rigs, c.profile, rigId)
    && s.profiles[c.profile].vendor == "NVIDIA" && TunedAccepted(result.tuned)
  }

  /** A rig whose i-th command ended. */
  function Ended(rig: Rig, i: nat, error: string, output: string): Rig
    requires i < |rig.commands|
  {
    rig.(commands := rig.commands[i := Finished(rig.commands[i], error, output)])
  }

  /** The first result of a running command: tuned limits go into the rig's own profile, or the tune is refused. */
  function Completed(s: State, rigId: Id, i: nat, result: Result, order: seq<string>): (t: State)
    requires rigId in s.rigs && i < |s.rigs[rigId].commands|
    ensures t.rigs.Keys == s.rigs.Keys
  {
    var rig := s.rigs[rigId];
    var c := rig.commands[i];
    if result.error == "" && c.action.SmartTune? then
      if TuneLands(s, rigId, c, result) then
        var p := TunedProfile(s.profiles[c.profile], result.tuned, order, s.maxPowerW);
        s.(profiles := s.profiles[p.id := p], rigs := s.rigs[rigId := BumpRig(Ended(rig, i, "", result.output))])
      else s.(rigs := s.rigs[rigId := Ended(rig, i, TUNE_REFUSED, result.output)])
    else s.(rigs := s.rigs[rigId := Ended(rig, i, result.error, result.output)])
  }

  function FinishCommand(s: State, rigId: Id, commandId: Id, result: Result, order: seq<string>): (e: Effect)
    ensures RigsOf(e) == s.rigs.Keys
  {
    if rigId !in s.rigs then Reject(s, NotFound)
    else
      var commands := s.rigs[rigId].commands;
      var i := Find(commands, commandId);
      if i == |commands| then Reject(s, NotFound)
      else if Terminal(commands[i]) then Done(s)
      else if !commands[i].status.Running? then Reject(s, Invalid)
      else Save(Completed(s, rigId, i, result, order))
  }
}
