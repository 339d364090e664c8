/**
 The controller's desired state: what it stores, and the configuration a rig is served
 from it. "" is the absent reference, as in the stored documents.
 */
module StoreState {
  import opened Wrappers
  import opened Tuning
  import opened CommandQueue
  import opened Templates
  import opened PowerPolicy

  type Id = string

  datatype Farm = Farm(id: Id, name: string)
  datatype Wallet = Wallet(id: Id, name: string, coin: string, address: string)
  datatype Pool = Pool(id: Id, name: string, url: string, password: string)

  datatype Miner = Miner(
    id: Id,
    catalogId: string,
    name: string,
    profile: string,
    algorithm: string,
    managedBinary: bool,
    binaryName: string,
    entryPoint: string,
    binarySha256: string,
    packageSha256: string,
    defaultArguments: seq<string>,
    extraArguments: seq<string>)

  datatype Sheet = Sheet(
    id: Id,
    name: string,
    deviceType: string,
    coin: string,
    algorithm: string,
    walletId: Id,
    poolId: Id,
    minerId: Id,
    secondaryDeviceType: string,
    secondaryCoin: string,
    secondaryAlgorithm: string,
    secondaryWalletId: Id,
    secondaryPoolId: Id,
    poolUrlOverride: string,
    poolPasswordOverride: string,
    walletTemplate: string,
    workerName: string,
    extraArguments: seq<string>,
    fallbackId: Id,
    failoverAfter: int,
    returnAfter: int)

  datatype Watchdog = Watchdog(enabled: bool, maxTemperature: real, minHashrate: real, restartAfter: int,
      rebootAfter: int)
  datatype Autofan = Autofan(enabled: bool, target: real, minimum: int, maximum: int)

  const NO_WATCHDOG := Watchdog(false, 0.0, 0.0, 0, 0)
  const NO_AUTOFAN := Autofan(false, 0.0, 0, 0)

  datatype Desired = Desired(revision: nat, sheetId: Id, profileId: Id, watchdog: Watchdog, autofan: Autofan)

  datatype Telemetry = Telemetry(lastHeartbeat: Option<int>, gpus: seq<Gpu>, minerRunning: bool,
      smartTuneSupported: bool, driverUpdateSupported: bool)

  datatype Rig = Rig(id: Id, name: string, farmId: Id, desired: Desired, telemetry: Telemetry, commands: seq<Command>)

  datatype ScheduleAction = Send(action: Action) | ApplySheet

  datatype Schedule = Schedule(
    id: Id,
    name: string,
    enabled: bool,
    days: seq<int>,
    time: string,
    action: ScheduleAction,
    rigIds: seq<Id>,
    sheetId: Id,
    lastRunMinute: string)

  datatype State = State(
    rigs: map<Id, Rig>,
    farms: map<Id, Farm>,
    wallets: map<Id, Wallet>,
    pools: map<Id, Pool>,
    miners: map<Id, Miner>,
    sheets: map<Id, Sheet>,
    profiles: map<Id, Profile>,
    schedules: map<Id, Schedule>,
    maxPowerW: int)

  const NO_WALLET := Wallet("", "", "", "")
  const NO_POOL := Pool("", "", "", "")
  const NO_MINER := Miner("", "", "", "", "", false, "", "", "", "", [], [])

  /** A map read that yields the zero value for a missing key. */
  function Get<V>(m: map<Id, V>, key: Id, zero: V): V {
    if key in m then m[key] else zero
  }

  // ----- the configuration a rig is served -----

  datatype Endpoint = Endpoint(url: string, password: string)

  /** A sheet with everything it refers to: all that can influence its workload except the rig's name. */
  datatype Closure = Closure(sheet: Sheet, miner: Miner, wallet: Wallet, pool: Endpoint, wallet2: Wallet,
      pool2: Endpoint)

  datatype Workload = Workload(
    coin: string,
    algorithm: string,
    miner: Miner,
    wallet: Wallet,
    pool: Endpoint,
    miningUser: string,
    workerName: string)

  /**
   The static miner catalog: the command-line flag for an algorithm, how a miner spells it, and
   whether a miner can start at all, its arguments aside.
   */
  datatype Catalog = Catalog(
    flags: map<string, string>,
    forCoin: (string, string, string) -> string,
    spelling: (string, string) -> string,
    startable: Miner -> bool)

  datatype Configuration = Configuration(
    revision: nat,
    maxPowerW: int,
    primary: Option<Workload>,
    fallback: Option<Workload>,
    failoverAfter: int,
    returnAfter: int,
    overclock: Profile,
    watchdog: Watchdog,
    autofan: Autofan)

  function PoolEndpoint(s: State, id: Id): Endpoint {
    var p := Get(s.pools, id, NO_POOL);
    Endpoint(p.url, p.password)
  }

  function CloseOver(s: State, sheet: Sheet): Closure {
    Closure(sheet, Get(s.miners, sheet.minerId, NO_MINER), Get(s.wallets, sheet.walletId, NO_WALLET),
        PoolEndpoint(s, sheet.poolId),
            Get(s.wallets, sheet.secondaryWalletId, NO_WALLET), PoolEndpoint(s, sheet.secondaryPoolId))
  }

  const SRB := "srbminer-multi"
  const EPIC := "epic-miner"

  predicate HasArgument(arguments: seq<string>, name: string) {
    exists i :: 0 <= i < |arguments| && (arguments[i] == name || StartsWith(arguments[i], name + "="))
  }

  function SrbWallet(wallet: Wallet, template: string): string {
    if template != "" then "{WALLET}" else wallet.address + ".{WORKER}"
  }

  function SrbSide(suffix: string, algorithm: string, pool: Endpoint, wallet: Wallet, template: string): seq<string> {
    ["--algorithm" + suffix, algorithm, "--pool" + suffix, pool.url, "--wallet" + suffix, SrbWallet(wallet, template),
        "--password" + suffix, pool.password]
  }

  function SrbArguments(c: Closure, pool: Endpoint): seq<string> {
    (if c.sheet.secondaryCoin == "" then
       SrbSide("", c.sheet.algorithm, pool, c.wallet, c.sheet.walletTemplate)
       + (if Fold(c.sheet.deviceType) == "cpu" then ["--disable-gpu"]
           else if Fold(c.sheet.deviceType) == "gpu" then ["--disable-cpu"] else [])
     else
       SrbSide("-" + Fold(c.sheet.deviceType), c.sheet.algorithm, pool, c.wallet, c.sheet.walletTemplate)
       + SrbSide("-" + Fold(c.sheet.secondaryDeviceType), c.sheet.secondaryAlgorithm, c.pool2, c.wallet2, ""))
    + ["--api-enable", "--api-port", "21550", "--api-rig-name", "{WORKER}"]
  }

  function EffectivePool(c: Closure): Endpoint {
    Endpoint(if c.sheet.poolUrlOverride != "" then c.sheet.poolUrlOverride else c.pool.url,
             if c.sheet.poolPasswordOverride != "" then c.sheet.poolPasswordOverride else c.pool.password)
  }

  /** The miner after the algorithm of the sheet is put on its command line. */
  function MinerWithAlgorithm(cat: Catalog, c: Closure): Miner {
    if c.miner.catalogId == SRB then
      c.miner.(defaultArguments := SrbArguments(c, EffectivePool(c)), extraArguments := [])
    else if c.sheet.algorithm != "" then
      var algorithm := cat.forCoin(c.miner.catalogId, c.sheet.coin, c.sheet.algorithm);
      var named := c.miner.(algorithm := algorithm);
      if c.miner.catalogId in cat.flags then
        named.(extraArguments :=
            named.extraArguments + [cat.flags[c.miner.catalogId], cat.spelling(c.miner.catalogId, algorithm)])
      else named
    else c.miner
  }

  /** validateFlightSheetMinerReady and validateBundledMinerAlgorithm */
  predicate Starts(cat: Catalog, c: Closure) {
    cat.startable(MinerWithAlgorithm(cat, c).(defaultArguments := [], extraArguments := []))
  }

  predicate NeedsLogin(m: Miner, sheet: Sheet) {
    && m.catalogId == EPIC
    && !HasArgument(m.defaultArguments, "--stratum-login")
    && !HasArgument(m.extraArguments, "--stratum-login")
    && !HasArgument(sheet.extraArguments, "--stratum-login")
  }

  /** resolveWorkloadLocked */
  function Resolve(cat: Catalog, c: Closure, rigName: string): Workload {
    var sheet := c.sheet;
    var coded := MinerWithAlgorithm(cat, c);
    var login := coded.defaultArguments + ["--stratum-login", "{STRATUM_LOGIN}"];
    var logged := if NeedsLogin(coded, sheet) then coded.(defaultArguments := login) else coded;
    var plain := if sheet.walletTemplate == "" then logged
                 else logged.(defaultArguments := DropWorkers(logged.defaultArguments));
    Workload(sheet.coin,
             if c.miner.catalogId != SRB
                 && sheet.algorithm != "" then cat.forCoin(c.miner.catalogId, sheet.coin, sheet.algorithm)
                 else sheet.algorithm,
             plain.(extraArguments := plain.extraArguments + sheet.extraArguments), c.wallet, EffectivePool(c),
             if sheet.walletTemplate == "" then ""
             else Render(sheet.walletTemplate, c.wallet.address, if sheet.workerName == "" then rigName
                 else sheet.workerName),
             sheet.workerName)
  }

  /** Everything a rig's mining depends on, apart from its name, the power ceiling and the GPUs it reported. */
  datatype MiningInputs = MiningInputs(primary: Option<Closure>, fallback: Option<Closure>, overclock: Profile,
      watchdog: Watchdog, autofan: Autofan)

  function PrimaryOf(s: State, rig: Rig): Option<Closure> {
    if rig.desired.sheetId in s.sheets then Some(CloseOver(s, s.sheets[rig.desired.sheetId])) else None
  }

  function FallbackOf(s: State, rig: Rig): Option<Closure> {
    if rig.desired.sheetId in s.sheets && s.sheets[rig.desired.sheetId].fallbackId in s.sheets
    then Some(CloseOver(s, s.sheets[s.sheets[rig.desired.sheetId].fallbackId]))
    else None
  }

  function NormalWatchdog(w: Watchdog): Watchdog { if w.enabled then w else NO_WATCHDOG }
  function NormalAutofan(a: Autofan): Autofan { if a.enabled then a else NO_AUTOFAN }

  function Inputs(s: State, rig: Rig): MiningInputs {
    MiningInputs(PrimaryOf(s, rig), FallbackOf(s, rig), Get(s.profiles, rig.desired.profileId, NO_PROFILE),
                 NormalWatchdog(rig.desired.watchdog), NormalAutofan(rig.desired.autofan))
  }

  /** The mining-relevant part of the served configuration, before the power clamp. */
  datatype Mining = Mining(
    primary: Option<Workload>,
    fallback: Option<Workload>,
    failoverAfter: int,
    returnAfter: int,
    overclock: Profile,
    watchdog: Watchdog,
    autofan: Autofan)

  function MiningFrom(cat: Catalog, inputs: MiningInputs, rigName: string): Mining {
    Mining(if inputs.primary.Some? then Some(Resolve(cat, inputs.primary.value, rigName)) else None,
           if inputs.fallback.Some? then Some(Resolve(cat, inputs.fallback.value, rigName)) else None,
           if inputs.fallback.Some? && inputs.primary.Some? then inputs.primary.value.sheet.failoverAfter else 0,
           if inputs.fallback.Some? && inputs.primary.Some? then inputs.primary.value.sheet.returnAfter else 0,
           inputs.overclock, inputs.watchdog, inputs.autofan)
  }

  function MiningOf(cat: Catalog, s: State, rig: Rig): Mining {
    MiningFrom(cat, Inputs(s, rig), rig.name)
  }

  // ----- the write-through that reading can cause -----

  /** Whether a resolved miner's default arguments are the stored miner's own, neither built nor copied. */
  predicate SharesArguments(cat: Catalog, c: Closure) {
    c.miner.catalogId != SRB && !NeedsLogin(MinerWithAlgorithm(cat, c), c.sheet)
  }

  /** Resolving a sheet with a wallet template rewrites default arguments in place. */
  predicate RewritesStored(cat: Catalog, c: Closure) {
    c.sheet.walletTemplate != "" && SharesArguments(cat, c)
  }

  function AfterResolving(cat: Catalog, s: State, sheet: Sheet): State {
    var c := CloseOver(s, sheet);
    if sheet.minerId in s.miners && RewritesStored(cat, c)
    then s.(miners := s.miners[sheet.minerId := c.miner.(defaultArguments := DropWorkers(c.miner.defaultArguments))])
    else s
  }

  /**
   The store's memory after serving a rig: the primary sheet is resolved, then, unless its miner
   cannot start, the fallback.
   */
  function AfterServing(cat: Catalog, s: State, rigId: Id): State {
    if rigId in s.rigs && s.rigs[rigId].desired.sheetId in s.sheets then
      var sheet := s.sheets[s.rigs[rigId].desired.sheetId];
      var first := AfterResolving(cat, s, sheet);
      if Starts(cat, CloseOver(s, sheet))
          && sheet.fallbackId in s.sheets then AfterResolving(cat, first, s.sheets[sheet.fallbackId]) else first
    else s
  }

  datatype Served = Served(configuration: Configuration) | UnknownRig | SheetMissing | CannotStart | FallbackMissing

  /** A resolved sheet as the reply shows it: shared arguments as they stand when it is encoded. */
  function Shown(cat: Catalog, c: Closure, rigName: string, last: map<Id, Miner>): Workload {
    var w := Resolve(cat, c, rigName);
    if c.sheet.minerId in last && SharesArguments(cat, c)
    then w.(miner := w.miner.(defaultArguments := last[c.sheet.minerId].defaultArguments))
    else w
  }

  /** What both sheets of a rig come to: each is resolved in the memory it finds, and all is encoded last. */
  function ServedMining(cat: Catalog, s: State, rigId: Id): Mining
    requires rigId in s.rigs
  {
    var rig := s.rigs[rigId];
    var last := AfterServing(cat, s, rigId).miners;
    var primary := PrimaryOf(s, rig);
    var first := if primary.Some? then AfterResolving(cat, s, primary.value.sheet) else s;
    var fallback := FallbackOf(first, rig);
    var both := fallback.Some? && primary.Some?;
    Mining(if primary.Some? then Some(Shown(cat, primary.value, rig.name, last)) else None,
           if fallback.Some? then Some(Shown(cat, fallback.value, rig.name, last)) else None,
           if both then primary.value.sheet.failoverAfter else 0,
           if both then primary.value.sheet.returnAfter else 0,
           Get(s.profiles, rig.desired.profileId, NO_PROFILE), rig.desired.watchdog, rig.desired.autofan)
  }

  /** What ResolvedWorkerConfiguration answers. */
  function Serve(cat: Catalog, s: State, rigId: Id): Served {
    if rigId !in s.rigs then UnknownRig
    else
      var rig := s.rigs[rigId];
      if rig.desired.sheetId != "" && rig.desired.sheetId !in s.sheets then SheetMissing
      else if rig.desired.sheetId != "" && !Starts(cat, CloseOver(s, s.sheets[rig.desired.sheetId])) then CannotStart
      else if rig.desired.sheetId != "" && s.sheets[rig.desired.sheetId].fallbackId != ""
          && s.sheets[rig.desired.sheetId].fallbackId !in s.sheets then FallbackMissing
      else
        var m := ServedMining(cat, s, rigId);
        Served(Configuration(rig.desired.revision, s.maxPowerW, m.primary, m.fallback, m.failoverAfter, m.returnAfter,
                             Clamped(m.overclock, s.maxPowerW, rig.telemetry.gpus), m.watchdog, m.autofan))
  }
}
