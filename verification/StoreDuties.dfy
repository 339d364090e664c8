/**
 What the controller's operations achieve: what is stored afterwards, read off the stored maps,
 and that nothing else is touched.
 */
module StoreDuties {
  import opened Wrappers
  import opened Tuning
  import opened Templates
  import opened CommandQueue
  import opened StoreState
  import opened StoreEffects
  import opened StoreRuns
  import opened StoreIntegrity

  /** Rigs may be told to look again, and that is all that happens to them. */
  ghost predicate OnlyRevisions(a: map<Id, Rig>, b: map<Id, Rig>) {
    && a.Keys == b.Keys
    && forall r :: r in a ==>
         b[r] == a[r].(desired := a[r].desired.(revision := b[r].desired.revision))
         && a[r].desired.revision <= b[r].desired.revision <= a[r].desired.revision + 1
  }

  /** One entry of a map is this; every other one is as it was. */
  ghost predicate Put<V>(a: map<Id, V>, b: map<Id, V>, id: Id, value: V) {
    && id in b && b[id] == value && b.Keys == a.Keys + {id}
    && forall k :: k in a && k != id ==> b[k] == a[k]
  }

  /** The rigs but for this one. */
  ghost predicate OnlyRig(a: State, b: State, rigId: Id) {
    && b == a.(rigs := b.rigs) && rigId in a.rigs && a.rigs.Keys == b.rigs.Keys
    && forall r :: r in a.rigs && r != rigId ==> b.rigs[r] == a.rigs[r]
  }

  // ----- resources -----

  /** The rig's sheet, and where that has one its fallback. */
  function SheetsOf(sheets: map<Id, Sheet>, rig: Rig): set<Id> {
    {rig.desired.sheetId}
    + (if rig.desired.sheetId in sheets then {sheets[rig.desired.sheetId].fallbackId} else {})
  }

  /** What the rig mines under mentions the resource. */
  ghost predicate Concerned(sheets: map<Id, Sheet>, rig: Rig, kind: Resource, id: Id) {
    match kind
    case ProfileOf => rig.desired.profileId == id
    case SheetOf => id in SheetsOf(sheets, rig)
    case WalletOf =>
      exists x :: x in SheetsOf(sheets, rig) && x in sheets && id in [sheets[x].walletId, sheets[x].secondaryWalletId]
    case PoolOf =>
      exists x :: x in SheetsOf(sheets, rig) && x in sheets && id in [sheets[x].poolId, sheets[x].secondaryPoolId]
    case MinerOf =>
      exists x :: x in SheetsOf(sheets, rig) && x in sheets && sheets[x].minerId == id
  }

  /** The rigs that are concerned have the next revision; nothing else happens to any rig. */
  ghost predicate Retold(a: map<Id, Rig>, b: map<Id, Rig>, sheets: map<Id, Sheet>, kind: Resource, id: Id) {
    && a.Keys == b.Keys
    && forall r :: r in a ==>
         b[r] == if Concerned(sheets, a[r], kind, id)
                 then a[r].(desired := a[r].desired.(revision := a[r].desired.revision + 1)) else a[r]
  }

  lemma AffectedIff(sheets: map<Id, Sheet>, rig: Rig, kind: Resource, id: Id)
    ensures Affected(sheets, rig, kind, id) <==> Concerned(sheets, rig, kind, id)
  {
    if rig.desired.sheetId in sheets {
      var sheet := sheets[rig.desired.sheetId];
      assert rig.desired.sheetId in SheetsOf(sheets, rig) && sheet.fallbackId in SheetsOf(sheets, rig);
      assert sheets[rig.desired.sheetId] == sheet;
    }
  }

  lemma BumpedRetold(s: State, kind: Resource, id: Id)
    ensures Retold(s.rigs, Bumped(s, kind, id).rigs, s.sheets, kind, id)
    ensures Bumped(s, kind, id) == s.(rigs := Bumped(s, kind, id).rigs)
  {
    hide Affected, Concerned;
    forall r | r in s.rigs
      ensures Affected(s.sheets, s.rigs[r], kind, id) <==> Concerned(s.sheets, s.rigs[r], kind, id)
    {
      AffectedIff(s.sheets, s.rigs[r], kind, id);
    }
  }

  lemma SavedWallet(s: State, value: Wallet, minted: Id, textOk: bool)
    ensures var e := SaveWallet(s, value, minted, textOk);
            && (e.Save? <==> textOk && (value.id == "" || value.id in s.wallets))
            && (!e.Save? ==> e.Reject? && e.memory == s)
            && (e.Save? ==>
                  && Put(s.wallets, e.next.wallets, if value.id != "" then value.id else minted,
                       value.(id := if value.id != "" then value.id else minted))
                  && Retold(s.rigs, e.next.rigs, s.sheets, WalletOf, if value.id != "" then value.id else minted)
                  && e.next == s.(wallets := e.next.wallets, rigs := e.next.rigs))
  {
    hide Bumped, Retold;
    var id := if value.id != "" then value.id else minted;
    BumpedRetold(s.(wallets := s.wallets[id := value.(id := id)]), WalletOf, id);
  }

  lemma SavedPool(s: State, value: Pool, minted: Id, textOk: bool)
    ensures var e := SavePool(s, value, minted, textOk);
            && (e.Save? <==> textOk && (value.id == "" || value.id in s.pools))
            && (!e.Save? ==> e.Reject? && e.memory == s)
            && (e.Save? ==>
                  && Put(s.pools, e.next.pools, if value.id != "" then value.id else minted,
                       value.(id := if value.id != "" then value.id else minted))
                  && (if value.id != ""
                         && (value.url != s.pools[value.id].url || value.password != s.pools[value.id].password)
                      then Retold(s.rigs, e.next.rigs, s.sheets, PoolOf, value.id) else e.next.rigs == s.rigs)
                  && e.next == s.(pools := e.next.pools, rigs := e.next.rigs))
  {
    hide Bumped, Retold;
    BumpedRetold(s.(pools := s.pools[value.id := value]), PoolOf, value.id);
  }

  /** A clock is fixed or offset, not both, and the setting is for every GPU or for a numbered one. */
  predicate SettingFits(x: Setting) {
    && 0 <= x.fan <= 100 && 0 <= x.power
    && (x.coreClock <= 0 || x.coreOffset == 0) && (x.memoryClock <= 0 || x.memoryOffset == 0)
    && (x.selector == "*" || ParseInt(x.selector) >= 0)
  }

  lemma SettingsFit(settings: seq<Setting>)
    ensures SettingsAccepted(settings) <==> forall x :: x in settings ==> SettingFits(x)
  {
    hide ParseInt;
    if SettingsAccepted(settings) {
      forall x | x in settings ensures SettingFits(x) {
        var i :| 0 <= i < |settings| && settings[i] == x;
      }
    } else {
      var i :| 0 <= i < |settings| && !(
        && 0 <= settings[i].fan <= 100 && settings[i].power >= 0
        && !(settings[i].coreClock > 0 && settings[i].coreOffset != 0)
        && !(settings[i].memoryClock > 0 && settings[i].memoryOffset != 0)
        && (settings[i].selector == "*" || ParseInt(settings[i].selector) >= 0));
      assert settings[i] in settings && !SettingFits(settings[i]);
    }
  }

  lemma SavedProfile(s: State, value: Profile, minted: Id, textOk: bool)
    ensures var e := SaveProfile(s, value, minted, textOk);
            && (e.Save? <==>
                  && textOk && value.vendor in ["NVIDIA", "AMD"] && (value.id == "" || value.id in s.profiles)
                  && forall x :: x in value.settings ==> SettingFits(x))
            && (!e.Save? ==> e.Reject? && e.memory == s)
            && (e.Save? ==>
                  && Put(s.profiles, e.next.profiles, if value.id != "" then value.id else minted,
                       value.(id := if value.id != "" then value.id else minted))
                  && Retold(s.rigs, e.next.rigs, s.sheets, ProfileOf, if value.id != "" then value.id else minted)
                  && e.next == s.(profiles := e.next.profiles, rigs := e.next.rigs))
  {
    hide Bumped, Retold, SettingsAccepted, SettingFits;
    SettingsFit(value.settings);
    var id := if value.id != "" then value.id else minted;
    BumpedRetold(s.(profiles := s.profiles[id := value.(id := id)]), ProfileOf, id);
  }

  /** What a sheet must be to be accepted, as far as the store decides it. */
  ghost predicate SheetFits(cat: Catalog, s: State, v: Sheet) {
    && v.walletId in s.wallets && v.poolId in s.pools && v.minerId in s.miners
    && 0 <= v.failoverAfter <= 600 && 0 <= v.returnAfter <= 600
    && (v.id == "" || v.id in s.sheets)
    && (v.coin == "" || Fold(v.coin) == Fold(s.wallets[v.walletId].coin))
    // only an Epic miner has a fallback: another sheet, for the same device, that has none itself
    && (v.fallbackId != "" ==>
          && v.fallbackId in s.sheets && s.miners[v.minerId].catalogId == "epic-miner"
          && s.sheets[v.fallbackId].fallbackId == ""
          && Fold(s.sheets[v.fallbackId].deviceType) == Fold(v.deviceType)
          && (v.id == "" || s.sheets[v.fallbackId].id != v.id))
    // only SRBMiner mines a second coin: completely described, on the other device
    && (v.secondaryDeviceType != "" || v.secondaryCoin != "" || v.secondaryAlgorithm != ""
        || v.secondaryWalletId != "" || v.secondaryPoolId != "" ==>
          && v.secondaryWalletId in s.wallets && v.secondaryPoolId in s.pools
          && v.secondaryCoin != "" && v.secondaryAlgorithm != ""
          && v.secondaryDeviceType in ["CPU", "GPU"] && v.secondaryDeviceType != v.deviceType
          && Fold(s.wallets[v.secondaryWalletId].coin) == Fold(v.secondaryCoin)
          && s.miners[v.minerId].catalogId == "srbminer-multi")
  }

  lemma SavedSheet(cat: Catalog, s: State, value: Sheet, minted: Id, textOk: bool)
    ensures var e := SaveSheet(cat, s, value, minted, textOk);
            && (e.Save? <==> textOk && SheetFits(cat, s, value))
            && (!e.Save? ==> e.Reject? && e.memory == s)
            && (e.Save? ==>
                  var id := if value.id != "" then value.id else minted;
                  var spelled := cat.forCoin(s.miners[value.minerId].catalogId, value.coin, value.algorithm);
                  var coin := if value.coin != "" then value.coin else s.wallets[value.walletId].coin;
                  && Put(s.sheets, e.next.sheets, id, value.(id := id, algorithm := spelled, coin := coin))
                  && Retold(s.rigs, e.next.rigs, e.next.sheets, SheetOf, id)
                  && e.next == s.(sheets := e.next.sheets, rigs := e.next.rigs))
  {
    hide Bumped, Retold, Fold;
    if SaveSheet(cat, s, value, minted, textOk).Save? {
      var id := if value.id != "" then value.id else minted;
      var spelled := cat.forCoin(s.miners[value.minerId].catalogId, value.coin, value.algorithm);
      var coin := if value.coin != "" then value.coin else s.wallets[value.walletId].coin;
      BumpedRetold(s.(sheets := s.sheets[id := value.(id := id, algorithm := spelled, coin := coin)]), SheetOf,
        id);
    }
  }

  /** An edited miner keeps its catalog entry, and the digests that still belong to its files. */
  ghost predicate MinerEdited(value: Miner, previous: Miner, m: Miner) {
    && m == value.(catalogId := m.catalogId, binarySha256 := m.binarySha256, packageSha256 := m.packageSha256)
    && m.catalogId == (if value.catalogId != "" then value.catalogId else previous.catalogId)
    && (value.binarySha256 != "" || !value.managedBinary || value.binaryName != previous.binaryName ==>
          m.binarySha256 == value.binarySha256)
    && (value.binarySha256 == "" && value.managedBinary && value.binaryName == previous.binaryName ==>
          m.binarySha256 == previous.binarySha256)
    && (value.packageSha256 != "" || !value.managedBinary || value.entryPoint != previous.entryPoint ==>
          m.packageSha256 == value.packageSha256)
    && (value.packageSha256 == "" && value.managedBinary && value.entryPoint == previous.entryPoint ==>
          m.packageSha256 == previous.packageSha256)
  }

  /** Another stored miner of the same catalog entry. */
  ghost predicate HasTwin(miners: map<Id, Miner>, value: Miner, order: seq<Id>) {
    && value.catalogId != ""
    && exists k :: k in order && k in miners && miners[k].catalogId == value.catalogId && miners[k].id != value.id
  }

  lemma {:induction false} TwinFound(miners: map<Id, Miner>, value: Miner, order: seq<Id>)
    ensures var t := CatalogTwin(miners, value, order);
            && (value.catalogId != "" ==> (t.Some? <==> HasTwin(miners, value, order)))
            && (t.Some? ==> exists k :: k in order && k in miners && miners[k].catalogId == value.catalogId
                                        && miners[k].id == t.value != value.id)
  {
    if order != [] {
      TwinFound(miners, value, order[1..]);
      assert order == [order[0]] + order[1..];
    }
  }

  /**
   A catalog entry is stored once: a new miner of an entry that is there takes its place, and an old one
   cannot become one of it.
   */
  lemma SavedMiner(s: State, value: Miner, minted: Id, textOk: bool, order: seq<Id>)
    requires forall k :: k in s.miners ==> s.miners[k].id == k && k != ""
    ensures var e := SaveMiner(s, value, minted, textOk, order);
            && (e.Save? <==>
                  && textOk && (value.id == "" || value.id in s.miners)
                  && (value.id != "" ==> !HasTwin(s.miners, value, order)))
            && (!e.Save? ==> e.Reject? && e.memory == s)
            && (e.Save? ==>
                  && e.next == s.(miners := e.next.miners, rigs := e.next.rigs)
                  && exists id :: id in e.next.miners && Put(s.miners, e.next.miners, id, e.next.miners[id])
                       && Retold(s.rigs, e.next.rigs, s.sheets, MinerOf, id)
                       && (value.id != "" ==> id == value.id)
                       && (value.id == "" && !HasTwin(s.miners, value, order) ==>
                             id == minted && e.next.miners[id] == value.(id := minted))
                       && (value.id != "" || HasTwin(s.miners, value, order) ==>
                             && id in s.miners && MinerEdited(value.(id := id), s.miners[id], e.next.miners[id])
                             && (value.id == "" ==> s.miners[id].catalogId == value.catalogId)))
  {
    hide Bumped, Retold, CatalogTwin, HasTwin, Inherit, MinerEdited, Put;
    TwinFound(s.miners, value, order);
    var twin := if value.catalogId == "" then None else CatalogTwin(s.miners, value, order);
    NoEntryNoTwin(s.miners, value, order);
    var e := SaveMiner(s, value, minted, textOk, order);
    if e.Save? {
      var named := if value.id == "" && twin.Some? then value.(id := twin.value) else value;
      var stored := if named.id == "" then named.(id := minted) else Inherit(named, s.miners[named.id]);
      BumpedRetold(s.(miners := s.miners[stored.id := stored]), MinerOf, stored.id);
      if named.id != "" { InheritEdits(named, s.miners[named.id]); }
      PutIn(s.miners, stored.id, stored);
    }
  }

  lemma InheritEdits(value: Miner, previous: Miner)
    ensures MinerEdited(value, previous, Inherit(value, previous)) && Inherit(value, previous).id == value.id
  {
  }

  lemma PutIn<V>(m: map<Id, V>, id: Id, value: V)
    ensures Put(m, m[id := value], id, value) && id in m[id := value] && m[id := value][id] == value
  {
  }

  lemma NoEntryNoTwin(miners: map<Id, Miner>, value: Miner, order: seq<Id>)
    ensures value.catalogId == "" ==> !HasTwin(miners, value, order)
  {
  }

  // ----- rigs -----

  /** Policies are in range where they are enabled. */
  predicate PoliciesFit(w: Watchdog, f: Autofan) {
    && (w.enabled ==>
          && 0.0 <= w.maxTemperature <= 110.0 && 0.0 <= w.minHashrate && 0 <= w.rebootAfter
          && (w.minHashrate == 0.0 || 10 <= w.restartAfter))
    && (f.enabled ==> 0.0 < f.target && 0 <= f.minimum <= f.maximum <= 100)
  }

  predicate NameFree(rigs: map<Id, Rig>, name: string, rigId: Id) {
    forall r :: r in rigs && r != rigId ==> Fold(rigs[r].name) != Fold(name)
  }

  /**
   An assignment that refers to what exists, with policies in range and a name nobody else has, is
   what the rig has afterwards, policies that are not enabled as blank ones; the revision rises by one
   exactly when the sheet, the profile or an enabled policy is another than before.
   */
  lemma AssignedHasIt(s: State, rigId: Id, a: Assignment)
    ensures var e := AssignWorker(s, rigId, a);
            && (e.Save? <==>
                  && rigId in s.rigs
                  && (a.farmId == "" || a.farmId in s.farms) && (a.sheetId == "" || a.sheetId in s.sheets)
                  && (a.profileId == "" || a.profileId in s.profiles)
                  && PoliciesFit(a.watchdog, a.autofan) && (a.name == "" || NameFree(s.rigs, a.name, rigId)))
            && (!e.Save? ==> e.Reject? && e.memory == s)
            && (e.Save? ==>
                  && OnlyRig(s, e.next, rigId)
                  && var was, now := s.rigs[rigId], e.next.rigs[rigId];
                     && now.desired.sheetId == a.sheetId && now.desired.profileId == a.profileId
                     && now.desired.watchdog == (if a.watchdog.enabled then a.watchdog else NO_WATCHDOG)
                     && now.desired.autofan == (if a.autofan.enabled then a.autofan else NO_AUTOFAN)
                     && now.farmId == a.farmId && now.name == (if a.name != "" then a.name else was.name)
                     && now == was.(name := now.name, farmId := now.farmId, desired := now.desired)
                     && (now.desired.revision == was.desired.revision
                         || now.desired.revision == was.desired.revision + 1)
                     && (now.desired.revision == was.desired.revision <==>
                           && was.desired.sheetId == a.sheetId && was.desired.profileId == a.profileId
                           && (was.desired.watchdog == a.watchdog
                               || (!was.desired.watchdog.enabled && !a.watchdog.enabled))
                           && (was.desired.autofan == a.autofan
                               || (!was.desired.autofan.enabled && !a.autofan.enabled))))
  {
    hide Fold;
  }

  lemma PolicyIsSet(s: State, watts: int)
    ensures var e := SetPowerPolicy(s, watts);
            && (e.Save? <==> 0 <= watts <= 600 && watts != s.maxPowerW)
            && (e.Save? ==>
                  && e.next == s.(maxPowerW := watts, rigs := e.next.rigs) && OnlyRevisions(s.rigs, e.next.rigs)
                  && forall r :: r in s.rigs ==>
                       (e.next.rigs[r].desired.revision > s.rigs[r].desired.revision <==>
                         s.rigs[r].telemetry.gpus != []))
  {
  }

  /** A new rig mines nothing and is asked nothing, under a name of its own. */
  lemma EnrolledIsBlank(s: State, name: string, minted: Id, authorized: bool)
    ensures var e := Enroll(s, name, minted, authorized);
            && (e.Save? <==> authorized && name != "" && NameFree(s.rigs, name, ""))
            && (e.Save? ==>
                  && e.next == s.(rigs := e.next.rigs)
                  && minted in e.next.rigs && Put(s.rigs, e.next.rigs, minted, e.next.rigs[minted])
                  && var rig := e.next.rigs[minted];
                     && rig.id == minted && rig.name == name && rig.commands == [] && rig.farmId == ""
                     && rig.desired == Desired(0, "", "", NO_WATCHDOG, NO_AUTOFAN))
    requires "" !in s.rigs
  {
    hide Fold;
  }

  lemma TelemetryIsKept(s: State, rigId: Id, telemetry: Telemetry, recorded: bool)
    ensures var e := Heartbeat(s, rigId, telemetry, recorded);
            && (e.Save? <==> rigId in s.rigs && recorded)
            && (rigId in s.rigs ==>
                  var t := if e.Save? then e.next else e.memory;
                  && !e.Done? && OnlyRig(s, t, rigId) && t.rigs[rigId] == s.rigs[rigId].(telemetry := telemetry))
  {
  }

  lemma UploadIsRecorded(s: State, minerId: Id, seen: Miner, binary: string, package: string, fileOk: bool)
    ensures var e := UploadMiner(s, minerId, seen, binary, package, fileOk);
            && (e.Save? <==> minerId in s.miners && s.miners[minerId] == seen && fileOk)
            && (e.Save? ==>
                  && e.next == s.(miners := e.next.miners, rigs := e.next.rigs)
                  && Retold(s.rigs, e.next.rigs, s.sheets, MinerOf, minerId)
                  && minerId in e.next.miners && Put(s.miners, e.next.miners, minerId, e.next.miners[minerId])
                  && var m := e.next.miners[minerId];
                     && m.binarySha256 == binary && m.packageSha256 == package && m.managedBinary
                     && m == seen.(binarySha256 := binary, packageSha256 := package, managedBinary := true))
  {
    hide Bumped, Retold;
    if minerId in s.miners {
      var m := s.miners[minerId].(binarySha256 := binary, packageSha256 := package, managedBinary := true);
      BumpedRetold(s.(miners := s.miners[minerId := m]), MinerOf, minerId);
    }
  }

  // ----- commands -----

  /** The queue of one rig has one more command, pending and never handed out. */
  ghost predicate QueuedOne(a: State, b: State, rigId: Id, id: Id, action: Action) {
    && OnlyRig(a, b, rigId)
    && var was, now := a.rigs[rigId], b.rigs[rigId];
       && now == was.(commands := now.commands) && |now.commands| == |was.commands| + 1
       && now.commands[..|was.commands|] == was.commands
       && var c := now.commands[|was.commands|];
          c.id == id && c.action == action && c.status.Pending? && c.attempt == 0 && c.error == "" && c.output == ""
  }

  /** The actions that are queued for any rig. */
  const PLAIN_ACTIONS := {Some(Start), Some(Stop), Some(Restart), Some(Reboot), Some(Shutdown), Some(Logs),
                          Some(StopSmartTune)}

  /** The rig reported within the last half minute. */
  predicate HeardOf(rig: Rig, now: int) {
    rig.telemetry.lastHeartbeat.Some? && now - rig.telemetry.lastHeartbeat.value < 30
  }

  /** Every command of this action has ended. */
  predicate NoneOpen(rig: Rig, action: Action) {
    forall i :: 0 <= i < |rig.commands| && rig.commands[i].action == action ==>
      rig.commands[i].status.Complete? || rig.commands[i].status.Failed?
  }

  /** A rig that mines on measured GPUs, with an NVIDIA profile of its own, and is not being tuned. */
  ghost predicate TuneFits(s: State, rigId: Id, tune: TuneRequest)
    requires rigId in s.rigs
  {
    var rig, id := s.rigs[rigId], s.rigs[rigId].desired.profileId;
    && tune.balanced && 0 <= tune.maxPowerW && 60.0 <= tune.maxTemperature <= 85.0
    && rig.telemetry.minerRunning && rig.telemetry.smartTuneSupported && rig.telemetry.gpus != []
    && (forall g :: g in rig.telemetry.gpus ==> 0.0 < g.powerDraw && 0.0 < g.hashrate)
    && id in s.profiles && s.profiles[id].vendor == "NVIDIA"
    && (forall r :: r in s.rigs && r != rigId ==> s.rigs[r].desired.profileId != s.profiles[id].id)
    && NoneOpen(rig, SmartTune)
  }

  lemma CommandIsQueued(s: State, rigId: Id, request: Request, minted: Id, now: int, textOk: bool, guardOk: bool)
    ensures var e := AddCommand(s, rigId, request, minted, now, textOk, guardOk);
            && (!e.Save? ==> e.Reject? && e.memory == s)
            && (e.Save? ==>
                  && rigId in s.rigs && textOk && request.action.Some?
                  && QueuedOne(s, e.next, rigId, minted, request.action.value)
                  && var last := e.next.rigs[rigId].commands[|s.rigs[rigId].commands|];
                     last.profile == (if request.action.value.SmartTune?
                                      then s.profiles[s.rigs[rigId].desired.profileId].id else request.profile))
            && (rigId in s.rigs && textOk && request.action in PLAIN_ACTIONS ==> e.Save?)
            && (rigId in s.rigs && request.action == Some(Shell) ==>
                  (e.Save? <==> textOk && HeardOf(s.rigs[rigId], now)))
            && (rigId in s.rigs && request.action == Some(DriverList) ==>
                  (e.Save? <==>
                     && textOk && guardOk && HeardOf(s.rigs[rigId], now)
                     && s.rigs[rigId].telemetry.driverUpdateSupported))
            && (rigId in s.rigs && request.action == Some(DriverUpdate) ==>
                  (e.Save? <==>
                     && textOk && guardOk && HeardOf(s.rigs[rigId], now)
                     && s.rigs[rigId].telemetry.driverUpdateSupported && NoneOpen(s.rigs[rigId], DriverUpdate)))
            && (rigId in s.rigs && request.action == Some(SmartTune) ==>
                  (e.Save? <==> textOk && request.tune.Some? && TuneFits(s, rigId, request.tune.value)))
  {
  }

  /** A result ends the command it is for, and says how. */
  ghost predicate EndsOne(was: Rig, now: Rig, i: nat, error: string, output: string) {
    && i < |was.commands| == |now.commands|
    && (forall j :: 0 <= j < |was.commands| && j != i ==> now.commands[j] == was.commands[j])
    && var a, b := was.commands[i], now.commands[i];
       && b == a.(status := b.status, error := b.error, output := b.output)
       && b.output == output
       && (error == "" ==> b.status.Complete? && b.error == a.error)
       && (error != "" ==> b.status.Failed? && b.error == error)
  }

  ghost predicate OnlyProfilesAnd(s: State, t: State, rigId: Id) {
    && rigId in s.rigs && t.rigs.Keys == s.rigs.Keys
    && t.farms == s.farms && t.wallets == s.wallets && t.pools == s.pools && t.miners == s.miners
    && t.sheets == s.sheets && t.schedules == s.schedules && t.maxPowerW == s.maxPowerW
    && (forall r :: r in s.rigs && r != rigId ==> t.rigs[r] == s.rigs[r])
  }

  /** What entering a result for the i-th command comes to. */
  ghost predicate EntersResult(s: State, t: State, rigId: Id, i: nat, result: Result)
    requires rigId in s.rigs && i < |s.rigs[rigId].commands|
  {
    && OnlyProfilesAnd(s, t, rigId)
    && var was, now := s.rigs[rigId], t.rigs[rigId];
       var tuned := result.error == "" && was.commands[i].action.SmartTune?;
       var lands := tuned && TuneLands(s, rigId, was.commands[i], result);
       && EndsOne(was, now, i, if tuned && !lands then TUNE_REFUSED else result.error, result.output)
       && now == was.(commands := now.commands, desired := now.desired)
       && now.desired == was.desired.(revision := was.desired.revision + (if lands then 1 else 0))
       && (!lands ==> t.profiles == s.profiles)
  }

  lemma CompletedEnters(s: State, rigId: Id, i: nat, result: Result, order: seq<string>)
    requires rigId in s.rigs && i < |s.rigs[rigId].commands|
    ensures EntersResult(s, Completed(s, rigId, i, result, order), rigId, i, result)
  {
    hide TuneLands, EndsOne, Ended, OnlyProfilesAnd, Completed, BumpRig;
    var was, t := s.rigs[rigId], Completed(s, rigId, i, result, order);
    CompletedRig(s, rigId, i, result, order);
    EndedEnds(was, i, result.error, result.output);
    EndedEnds(was, i, "", result.output);
    EndedEnds(was, i, TUNE_REFUSED, result.output);
    BumpedEnds(was, Ended(was, i, "", result.output), i, "", result.output);
  }

  lemma CompletedRig(s: State, rigId: Id, i: nat, result: Result, order: seq<string>)
    requires rigId in s.rigs && i < |s.rigs[rigId].commands|
    ensures var t := Completed(s, rigId, i, result, order);
            var was := s.rigs[rigId];
            var tuned := result.error == "" && was.commands[i].action.SmartTune?;
            var lands := tuned && TuneLands(s, rigId, was.commands[i], result);
            && OnlyProfilesAnd(s, t, rigId)
            && (!lands ==> t.profiles == s.profiles)
            && t.rigs[rigId] == (if lands then BumpRig(Ended(was, i, "", result.output))
                                 else Ended(was, i, if tuned then TUNE_REFUSED else result.error, result.output))
  {
    var was := s.rigs[rigId];
    var c := was.commands[i];
    var error := if result.error == "" && c.action.SmartTune? then TUNE_REFUSED else result.error;
    RigPut(s, s.profiles, rigId, Ended(was, i, error, result.output));
    if result.error == "" && c.action.SmartTune? && TuneLands(s, rigId, c, result) {
      var p := TunedProfile(s.profiles[c.profile], result.tuned, order, s.maxPowerW);
      RigPut(s, s.profiles[p.id := p], rigId, BumpRig(Ended(was, i, "", result.output)));
    }
    hide TuneLands, TunedProfile, Ended, BumpRig, OnlyProfilesAnd;
  }

  lemma RigPut(s: State, profiles: map<Id, Profile>, rigId: Id, rig: Rig)
    requires rigId in s.rigs
    ensures var t := s.(profiles := profiles, rigs := s.rigs[rigId := rig]);
            OnlyProfilesAnd(s, t, rigId) && t.rigs[rigId] == rig && t.profiles == profiles
  {
  }

  lemma EndedEnds(rig: Rig, i: nat, error: string, output: string)
    requires i < |rig.commands|
    ensures EndsOne(rig, Ended(rig, i, error, output), i, error, output)
    ensures Ended(rig, i, error, output) == rig.(commands := Ended(rig, i, error, output).commands)
  {
  }

  lemma BumpedEnds(was: Rig, now: Rig, i: nat, error: string, output: string)
    requires EndsOne(was, now, i, error, output)
    ensures EndsOne(was, BumpRig(now), i, error, output)
    ensures BumpRig(now) == now.(desired := now.desired.(revision := now.desired.revision + 1))
  {
  }

  /**
   A result is entered for a running command of the rig and for no other; a tune that no longer lands
   has failed, and one that lands brings the rig a new revision.
   */
  lemma ResultIsEntered(s: State, rigId: Id, i: nat, result: Result, order: seq<string>)
    requires rigId in s.rigs && i < |s.rigs[rigId].commands| && DistinctIds(s.rigs[rigId].commands)
    ensures var c := s.rigs[rigId].commands[i];
            var e := FinishCommand(s, rigId, c.id, result, order);
            && (e.Save? <==> c.status.Running?)
            && (e.Save? ==> EntersResult(s, e.next, rigId, i, result))
            && (c.status.Complete? || c.status.Failed? <==> e == Done(s))
            && (c.status.Pending? <==> e.Reject?)
  {
    hide EntersResult, Completed;
    var commands := s.rigs[rigId].commands;
    assert Find(commands, commands[i].id) == i;
    CompletedEnters(s, rigId, i, result, order);
  }

  lemma UnknownIsRefused(s: State, rigId: Id, commandId: Id, result: Result, order: seq<string>)
    requires rigId in s.rigs ==>
               forall i :: 0 <= i < |s.rigs[rigId].commands| ==> s.rigs[rigId].commands[i].id != commandId
    ensures FinishCommand(s, rigId, commandId, result, order) == Reject(s, NotFound)
  {
  }

  // ----- deleting -----

  /** Some rig, sheet or schedule refers to the entry. */
  ghost predicate Referred(s: State, kind: Kind, id: Id) {
    match kind
    case Farms => exists r :: r in s.rigs && s.rigs[r].farmId == id
    case Wallets =>
      exists x :: x in s.sheets && (s.sheets[x].walletId == id || s.sheets[x].secondaryWalletId == id)
    case Pools => exists x :: x in s.sheets && (s.sheets[x].poolId == id || s.sheets[x].secondaryPoolId == id)
    case Miners => exists x :: x in s.sheets && s.sheets[x].minerId == id
    case Sheets =>
      || (exists r :: r in s.rigs && s.rigs[r].desired.sheetId == id)
      || (exists x :: x in s.sheets && s.sheets[x].fallbackId == id)
      || (exists v :: v in s.schedules && s.schedules[v].sheetId == id)
    case Profiles => exists r :: r in s.rigs && s.rigs[r].desired.profileId == id
    case Schedules => false
    case Unknown => true
  }

  /** The identifiers of a kind. */
  function Ids(s: State, kind: Kind): set<Id> {
    match kind
    case Farms => s.farms.Keys
    case Wallets => s.wallets.Keys
    case Pools => s.pools.Keys
    case Miners => s.miners.Keys
    case Sheets => s.sheets.Keys
    case Profiles => s.profiles.Keys
    case Schedules => s.schedules.Keys
    case Unknown => {}
  }

  /** Everything in the second state is as in the first. */
  ghost predicate Within(a: State, b: State) {
    && (forall k :: k in b.farms ==> k in a.farms && b.farms[k] == a.farms[k])
    && (forall k :: k in b.wallets ==> k in a.wallets && b.wallets[k] == a.wallets[k])
    && (forall k :: k in b.pools ==> k in a.pools && b.pools[k] == a.pools[k])
    && (forall k :: k in b.miners ==> k in a.miners && b.miners[k] == a.miners[k])
    && (forall k :: k in b.sheets ==> k in a.sheets && b.sheets[k] == a.sheets[k])
    && (forall k :: k in b.profiles ==> k in a.profiles && b.profiles[k] == a.profiles[k])
    && (forall k :: k in b.schedules ==> k in a.schedules && b.schedules[k] == a.schedules[k])
    && b.rigs == a.rigs && b.maxPowerW == a.maxPowerW
  }

  lemma ReferredIs(s: State, kind: Kind, id: Id)
    requires id in Ids(s, kind)
    ensures RigRefers(s, kind, id) || SheetRefers(s, kind, id) || ScheduleRefers(s, kind, id) <==> Referred(s, kind, id)
  {
  }

  lemma WithoutIsWithin(s: State, kind: Kind, id: Id)
    ensures Within(s, Without(s, kind, id))
  {
  }

  lemma WithoutOne(s: State, kind: Kind, id: Id, other: Kind)
    ensures Ids(Without(s, kind, id), other) == if other == kind then Ids(s, kind) - {id} else Ids(s, other)
  {
  }

  /** What exists and is not referred to is deleted, and nothing else with it. */
  lemma DeletedIsGone(s: State, kind: Kind, id: Id, filesOk: bool)
    ensures var e := Delete(s, kind, id, filesOk);
            && (e.Save? <==> id in Ids(s, kind) && !Referred(s, kind, id) && (kind.Miners? ==> filesOk))
            && (e.Save? ==>
                  && Within(s, e.next) && Ids(e.next, kind) == Ids(s, kind) - {id}
                  && forall other :: other != kind ==> Ids(e.next, other) == Ids(s, other))
  {
    assert Exists(s, kind, id) <==> id in Ids(s, kind);
    if id in Ids(s, kind) { ReferredIs(s, kind, id); }
    WithoutIsWithin(s, kind, id);
    forall other
      ensures Ids(Without(s, kind, id), other) == if other == kind then Ids(s, kind) - {id} else Ids(s, other)
    {
      WithoutOne(s, kind, id, other);
    }
    hide Without, Within, Ids, RigRefers, SheetRefers, ScheduleRefers, Referred, Exists;
  }

  // ----- schedules -----

  /** How often a rig is listed among the first n. */
  function Listed(rigIds: seq<Id>, n: nat, r: Id): nat
    requires n <= |rigIds|
  {
    if n == 0 then 0 else Listed(rigIds, n - 1, r) + (if rigIds[n - 1] == r then 1 else 0)
  }

  /** The rig was told this often: a command queued each time, or the sheet of the schedule assigned. */
  ghost predicate Told(was: Rig, now: Rig, v: Schedule, times: nat) {
    match v.action
    case Send(a) =>
      && now == was.(commands := now.commands) && |now.commands| == |was.commands| + times
      && now.commands[..|was.commands|] == was.commands
      && forall i :: |was.commands| <= i < |now.commands| ==>
           now.commands[i].action == a && now.commands[i].status.Pending?
    case ApplySheet =>
      && now == was.(desired := now.desired)
      && now.desired == was.desired.(sheetId := if times > 0 then v.sheetId else was.desired.sheetId,
           revision := was.desired.revision + times)
  }

  lemma {:induction false} VisitedTold(rigs: map<Id, Rig>, v: Schedule, key: Id, n: nat, tokens: Tokens, r: Id)
    requires n <= |v.rigIds| && r in rigs
    ensures Told(rigs[r], Visited(rigs, v, key, n, tokens)[r], v, Listed(v.rigIds, n, r))
  {
    if n > 0 {
      VisitedTold(rigs, v, key, n - 1, tokens, r);
    }
  }

  /**
   A due schedule tells every rig it lists, as often as it lists it, what it is to do, notes the minute
   and touches nothing else; one that is not due does nothing.
   */
  lemma ScheduleTells(s: State, key: Id, now: Moment, tokens: Tokens)
    requires key in s.schedules
    ensures var v := s.schedules[key];
            var t := RunOne(s, key, now, tokens);
            var due := v.enabled && v.time == now.time && now.weekday in v.days && v.lastRunMinute != now.minute;
            && (!due ==> t == s)
            && (due ==>
                  && t == s.(rigs := t.rigs, schedules := t.schedules) && t.rigs.Keys == s.rigs.Keys
                  && Put(s.schedules, t.schedules, key, v.(lastRunMinute := now.minute))
                  && forall r :: r in s.rigs ==> Told(s.rigs[r], t.rigs[r], v, Listed(v.rigIds, |v.rigIds|, r)))
  {
    hide Visited, Told;
    var v := s.schedules[key];
    forall r | r in s.rigs
      ensures Told(s.rigs[r], Visited(s.rigs, v, key, |v.rigIds|, tokens)[r], v, Listed(v.rigIds, |v.rigIds|, r))
    {
      VisitedTold(s.rigs, v, key, |v.rigIds|, tokens, r);
    }
  }

  // ----- quick setup -----

  /** Nothing stored is lost or changed. */
  ghost predicate Adds(a: State, b: State) {
    && b == a.(miners := b.miners, wallets := b.wallets, pools := b.pools, sheets := b.sheets, rigs := b.rigs)
    && (forall k :: k in a.miners ==> k in b.miners && b.miners[k] == a.miners[k])
    && (forall k :: k in a.wallets ==> k in b.wallets && b.wallets[k] == a.wallets[k])
    && (forall k :: k in a.pools ==> k in b.pools && b.pools[k] == a.pools[k])
    && (forall k :: k in a.sheets ==> k in b.sheets && b.sheets[k] == a.sheets[k])
  }

  predicate PaysTo(w: Wallet, coin: string, address: string) {
    Fold(w.coin) == Fold(coin) && w.address == address
  }

  predicate LeadsTo(p: Pool, url: string, password: string) {
    p.url == url && p.password == password
  }

  /** A wallet for the coin and address, and an old one where there was one among those looked at. */
  ghost predicate GoodWallet(s: State, t: State, id: Id, coin: string, address: string, order: seq<Id>) {
    && id in t.wallets && PaysTo(t.wallets[id], coin, address)
    && ((exists k :: k in order && k in s.wallets && PaysTo(s.wallets[k], coin, address)) ==>
          id in s.wallets && t.wallets == s.wallets)
  }

  ghost predicate GoodPool(s: State, t: State, id: Id, url: string, password: string, order: seq<Id>) {
    && id in t.pools && LeadsTo(t.pools[id], url, password)
    && ((exists k :: k in order && k in s.pools && LeadsTo(s.pools[k], url, password)) ==>
          id in s.pools && t.pools == s.pools)
  }

  ghost predicate KeyedById(s: State) {
    && (forall k :: k in s.wallets ==> s.wallets[k].id == k != "")
    && (forall k :: k in s.pools ==> s.pools[k].id == k != "")
    && (forall k :: k in s.miners ==> s.miners[k].id == k != "")
  }

  lemma {:induction false} WalletFound(wallets: map<Id, Wallet>, coin: string, address: string, order: seq<Id>)
    requires forall k :: k in wallets ==> wallets[k].id == k
    ensures var f := FindWallet(wallets, coin, address, order);
            && (f.Some? ==> f.value.id in wallets && wallets[f.value.id] == f.value && PaysTo(f.value, coin, address))
            && (f.None? ==> forall k :: k in order && k in wallets ==> !PaysTo(wallets[k], coin, address))
  {
    hide Fold;
    if order != [] {
      WalletFound(wallets, coin, address, order[1..]);
      assert order == [order[0]] + order[1..];
    }
  }

  lemma {:induction false} PoolFound(pools: map<Id, Pool>, url: string, password: string, order: seq<Id>)
    requires forall k :: k in pools ==> pools[k].id == k
    ensures var f := FindPool(pools, url, password, order);
            && (f.Some? ==> f.value.id in pools && pools[f.value.id] == f.value && LeadsTo(f.value, url, password))
            && (f.None? ==> forall k :: k in order && k in pools ==> !LeadsTo(pools[k], url, password))
  {
    if order != [] {
      PoolFound(pools, url, password, order[1..]);
      assert order == [order[0]] + order[1..];
    }
  }

  lemma NewWallet(s: State, name: string, coin: string, address: string, order: seq<Id>, id: Id)
    requires KeyedById(s) && id !in s.wallets && id != ""
    requires forall k :: k in order && k in s.wallets ==> !PaysTo(s.wallets[k], coin, address)
    ensures var t := s.(wallets := s.wallets[id := Wallet(id, name, coin, address)]);
            GoodWallet(s, t, id, coin, address, order) && Adds(s, t) && KeyedById(t)
  {
    hide Fold;
  }

  lemma WalletIsGood(s: State, coin: string, address: string, order: seq<Id>, minted: Id)
    requires KeyedById(s) && minted !in s.wallets && minted != ""
    ensures var (t, id) := WithWallet(s, coin, address, order, minted);
            && GoodWallet(s, t, id, coin, address, order) && Adds(s, t) && KeyedById(t)
            && t == s.(wallets := t.wallets) && t.wallets.Keys <= s.wallets.Keys + {minted}
  {
    WalletFound(s.wallets, coin, address, order);
    if FindWallet(s.wallets, coin, address, order).None? {
      NewWallet(s, coin + " Wallet", coin, address, order, minted);
      hide GoodWallet, Adds, KeyedById, FindWallet;
    }
    hide FindWallet, Fold;
  }

  lemma NewPool(s: State, host: string, url: string, password: string, order: seq<Id>, id: Id)
    requires KeyedById(s) && id !in s.pools && id != ""
    requires forall k :: k in order && k in s.pools ==> !LeadsTo(s.pools[k], url, password)
    ensures var t := s.(pools := s.pools[id := Pool(id, host, url, password)]);
            GoodPool(s, t, id, url, password, order) && Adds(s, t) && KeyedById(t)
  {
  }

  lemma PoolIsGood(s: State, url: string, host: string, password: string, order: seq<Id>, minted: Id)
    requires KeyedById(s) && minted !in s.pools && minted != ""
    ensures var (t, id) := WithPool(s, url, host, password, order, minted);
            && GoodPool(s, t, id, url, password, order) && Adds(s, t) && KeyedById(t)
            && t == s.(pools := t.pools) && t.pools.Keys <= s.pools.Keys + {minted}
  {
    PoolFound(s.pools, url, password, order);
    if FindPool(s.pools, url, password, order).None? {
      NewPool(s, host, url, password, order, minted);
      hide GoodPool, Adds, KeyedById, FindPool;
    }
    hide FindPool;
  }

  lemma {:induction false} RedirectedTold(rigs: map<Id, Rig>, rigIds: seq<Id>, sheetId: Id, r: Id)
    requires r in rigs
    ensures var now := Redirected(rigs, rigIds, sheetId)[r];
            var times := Listed(rigIds, |rigIds|, r);
            && now == rigs[r].(desired := now.desired)
            && now.desired == rigs[r].desired.(sheetId := if times > 0 then sheetId else rigs[r].desired.sheetId,
                 revision := rigs[r].desired.revision + times)
  {
    if rigIds != [] {
      var n := |rigIds| - 1;
      RedirectedTold(rigs, rigIds[..n], sheetId, r);
      ListedFront(rigIds, n, n, r);
    }
  }

  lemma {:induction false} ListedFront(rigIds: seq<Id>, m: nat, n: nat, r: Id)
    requires n <= m <= |rigIds|
    ensures Listed(rigIds[..m], n, r) == Listed(rigIds, n, r)
  {
    if n > 0 { ListedFront(rigIds, m, n - 1, r); }
  }

  lemma {:induction false} ListedIff(rigIds: seq<Id>, n: nat, r: Id)
    requires n <= |rigIds|
    ensures Listed(rigIds, n, r) > 0 <==> r in rigIds[..n]
  {
    if n > 0 {
      ListedIff(rigIds, n - 1, r);
      assert rigIds[..n] == rigIds[..n - 1] + [rigIds[n - 1]];
    }
  }

  /** A stored miner is of a catalog entry by its reference, or without one by the names of miner and binary. */
  predicate OfEntry(m: Miner, entry: Miner) {
    || (m.catalogId != "" && m.catalogId == entry.catalogId)
    || (m.catalogId == "" && Fold(m.name) == Fold(entry.name) && Fold(m.binaryName) == Fold(entry.binaryName))
  }

  ghost predicate GoodMiner(s: State, t: State, m: Miner, q: QuickInput, minted: Id) {
    && m.id in t.miners && t.miners[m.id] == m
    && (q.minerId != "" ==> m.id == q.minerId && t.miners == s.miners)
    && (q.minerId == "" ==> (m.id in s.miners && OfEntry(m, q.entry)) || m == q.entry.(id := minted))
  }

  lemma {:induction false} EntryFound(miners: map<Id, Miner>, entry: Miner, order: seq<Id>)
    requires forall k :: k in miners ==> miners[k].id == k
    ensures var f := FindEntry(miners, entry, order);
            f.Some? ==> f.value.id in miners && miners[f.value.id] == f.value && OfEntry(f.value, entry)
  {
    hide Fold;
    if order != [] { EntryFound(miners, entry, order[1..]); }
  }

  lemma MinerIsGood(s: State, q: QuickInput, order: seq<Id>, minted: Id)
    requires KeyedById(s) && minted !in s.miners && minted != "" && (q.minerId != "" ==> q.minerId in s.miners)
    ensures var (t, m) := WithMiner(s, q, order, minted);
            GoodMiner(s, t, m, q, minted) && Adds(s, t) && KeyedById(t) && t == s.(miners := t.miners)
  {
    hide FindEntry, OfEntry;
    EntryFound(s.miners, q.entry, order);
  }

  /** The identifiers drawn are new and differ. */
  ghost predicate FreshFor(s: State, m: QuickFresh) {
    m.miner !in s.miners && m.miner != "" && FreshParts(s, m)
  }

  ghost predicate FreshParts(s: State, m: QuickFresh) {
    && m.sheet !in s.sheets && m.sheet != ""
    && m.wallet !in s.wallets && m.wallet2 !in s.wallets && m.wallet != m.wallet2 && m.wallet != "" && m.wallet2 != ""
    && m.pool !in s.pools && m.pool2 !in s.pools && m.pool != m.pool2 && m.pool != "" && m.pool2 != ""
  }

  /** What one side of a quick sheet refers to. */
  ghost predicate SideReady(t: State, wallet: Id, pool: Id, coin: string, address: string, url: string,
      password: string) {
    && wallet in t.wallets && PaysTo(t.wallets[wallet], coin, address)
    && pool in t.pools && LeadsTo(t.pools[pool], url, password)
  }

  lemma AddsBoth(a: State, b: State, c: State)
    requires Adds(a, b) && Adds(b, c)
    ensures Adds(a, c)
  {
  }

  lemma SideIsReady(s: State, s1: State, s2: State, wallet: Id, pool: Id, coin: string, address: string, url: string,
      password: string, wallets: seq<Id>, pools: seq<Id>)
    requires GoodWallet(s, s1, wallet, coin, address, wallets) && GoodPool(s1, s2, pool, url, password, pools)
    requires s2.wallets == s1.wallets && s1.pools == s.pools
    ensures SideReady(s2, wallet, pool, coin, address, url, password)
    ensures GoodWallet(s, s2, wallet, coin, address, wallets) && GoodPool(s, s2, pool, url, password, pools)
  {
    hide PaysTo, LeadsTo;
  }

  lemma PrimaryIsReady(s: State, q: QuickInput, minted: QuickFresh, order: QuickOrder)
    requires KeyedById(s) && FreshParts(s, minted)
    ensures var p := PickPrimary(s, q, minted, order);
            && Adds(s, p.state) && KeyedById(p.state) && p.wallet2 == "" && p.pool2 == ""
            && p.state == s.(wallets := p.state.wallets, pools := p.state.pools)
            && minted.wallet2 !in p.state.wallets && minted.pool2 !in p.state.pools
            && SideReady(p.state, p.wallet, p.pool, q.coin, q.walletAddress, q.poolUrl, q.poolPassword)
            && GoodWallet(s, p.state, p.wallet, q.coin, q.walletAddress, order.wallets)
            && GoodPool(s, p.state, p.pool, q.poolUrl, q.poolPassword, order.pools)
  {
    WalletIsGood(s, q.coin, q.walletAddress, order.wallets, minted.wallet);
    var (s1, wallet) := WithWallet(s, q.coin, q.walletAddress, order.wallets, minted.wallet);
    PoolIsGood(s1, q.poolUrl, q.poolHost, q.poolPassword, order.pools, minted.pool);
    var (s2, pool) := WithPool(s1, q.poolUrl, q.poolHost, q.poolPassword, order.pools, minted.pool);
    AddsBoth(s, s1, s2);
    SideIsReady(s, s1, s2, wallet, pool, q.coin, q.walletAddress, q.poolUrl, q.poolPassword, order.wallets,
      order.pools);
    hide WithWallet, WithPool, Adds, KeyedById, GoodWallet, GoodPool, SideReady;
  }

  lemma SecondaryIsReady(p: Picked, q: QuickInput, minted: QuickFresh, order: QuickOrder)
    requires KeyedById(p.state) && minted.wallet2 !in p.state.wallets && minted.pool2 !in p.state.pools
    requires minted.wallet2 != "" && minted.pool2 != ""
    ensures var r := PickSecondary(p, q, minted, order);
            && Adds(p.state, r.state) && r.wallet == p.wallet && r.pool == p.pool
            && r.state == p.state.(wallets := r.state.wallets, pools := r.state.pools)
            && (QuickSecondary(q) ==>
                  SideReady(r.state, r.wallet2, r.pool2, q.secondaryCoin, q.secondaryWalletAddress, q.secondaryPoolUrl,
                    q.secondaryPoolPassword))
            && (!QuickSecondary(q) ==> r == p)
  {
    if QuickSecondary(q) {
      var wallets, pools := order.wallets + [minted.wallet], order.pools + [minted.pool];
      WalletIsGood(p.state, q.secondaryCoin, q.secondaryWalletAddress, wallets, minted.wallet2);
      var (s1, wallet) := WithWallet(p.state, q.secondaryCoin, q.secondaryWalletAddress, wallets, minted.wallet2);
      PoolIsGood(s1, q.secondaryPoolUrl, q.secondaryPoolHost, q.secondaryPoolPassword, pools, minted.pool2);
      var (s2, pool) := WithPool(s1, q.secondaryPoolUrl, q.secondaryPoolHost, q.secondaryPoolPassword, pools,
        minted.pool2);
      AddsBoth(p.state, s1, s2);
      SideIsReady(p.state, s1, s2, wallet, pool, q.secondaryCoin, q.secondaryWalletAddress, q.secondaryPoolUrl,
        q.secondaryPoolPassword, wallets, pools);
      hide WithWallet, WithPool, Adds, KeyedById, GoodWallet, GoodPool, SideReady, QuickSecondary;
    }
  }

  /** The sheet asked for, with resources that were there where they fit. */
  ghost predicate SheetAsAsked(s: State, t: State, sheet: Sheet, q: QuickInput, minted: QuickFresh, order: QuickOrder) {
    && sheet.name == q.name && sheet.deviceType == q.deviceType && sheet.coin == q.coin
    && sheet.algorithm == q.algorithm && sheet.walletTemplate == q.walletTemplate
    && sheet.workerName == "" && sheet.fallbackId == "" && sheet.extraArguments == []
    && sheet.poolUrlOverride == "" && sheet.poolPasswordOverride == ""
    && sheet.secondaryCoin == q.secondaryCoin && sheet.secondaryDeviceType == q.secondaryDeviceType
    && sheet.secondaryAlgorithm == q.secondaryAlgorithm
    && SideReady(t, sheet.walletId, sheet.poolId, q.coin, q.walletAddress, q.poolUrl, q.poolPassword)
    && ((exists k :: k in order.wallets && k in s.wallets && PaysTo(s.wallets[k], q.coin, q.walletAddress)) ==>
          sheet.walletId in s.wallets)
    && ((exists k :: k in order.pools && k in s.pools && LeadsTo(s.pools[k], q.poolUrl, q.poolPassword)) ==>
          sheet.poolId in s.pools)
    && (if QuickSecondary(q) then
          SideReady(t, sheet.secondaryWalletId, sheet.secondaryPoolId, q.secondaryCoin,
            q.secondaryWalletAddress, q.secondaryPoolUrl, q.secondaryPoolPassword)
        else sheet.secondaryWalletId == "" && sheet.secondaryPoolId == "")
    && sheet.minerId in t.miners && GoodMiner(s, t, t.miners[sheet.minerId], q, minted.miner)
  }

  /** The chosen rigs have the sheet, with a new revision; the others are as they were. */
  ghost predicate RigsAsAsked(a: map<Id, Rig>, b: map<Id, Rig>, rigIds: seq<Id>, sheetId: Id) {
    && (forall r :: r in rigIds ==> r in a) && b.Keys == a.Keys
    && forall r :: r in a ==>
         if r in rigIds then
           && b[r].desired.sheetId == sheetId && b[r].desired.revision > a[r].desired.revision
           && b[r] == a[r].(desired := a[r].desired.(sheetId := sheetId, revision := b[r].desired.revision))
         else b[r] == a[r]
  }

  lemma RedirectedAsAsked(rigs: map<Id, Rig>, rigIds: seq<Id>, sheetId: Id)
    requires forall i :: 0 <= i < |rigIds| ==> rigIds[i] in rigs
    ensures RigsAsAsked(rigs, Redirected(rigs, rigIds, sheetId), rigIds, sheetId)
  {
    hide Redirected, Listed;
    forall r | r in rigs
      ensures var now := Redirected(rigs, rigIds, sheetId)[r];
              if r in rigIds then
                && now.desired.sheetId == sheetId && now.desired.revision > rigs[r].desired.revision
                && now == rigs[r].(desired := rigs[r].desired.(sheetId := sheetId, revision := now.desired.revision))
              else now == rigs[r]
    {
      RedirectedTold(rigs, rigIds, sheetId, r);
      ListedIff(rigIds, |rigIds|, r);
      assert rigIds[..|rigIds|] == rigIds;
    }
  }

  lemma QuickStages(s: State, q: QuickInput, checks: QuickChecks, minted: QuickFresh, order: QuickOrder)
    requires QuickSetup(s, q, checks, minted, order).Save?
    ensures q.minerId != "" ==> q.minerId in s.miners
    ensures forall i :: 0 <= i < |q.rigIds| ==> q.rigIds[i] in s.rigs
    ensures var (s1, miner) := WithMiner(s, q, order.miners, minted.miner);
            QuickSetup(s, q, checks, minted, order).next
              == WithQuickSheet(PickSecondary(PickPrimary(s1, q, minted, order), q, minted, order), q, miner.id,
                   minted.sheet)
  {
    hide WithMiner, PickPrimary, PickSecondary, WithQuickSheet, QuickSecondary;
  }

  lemma SideStays(a: State, b: State, wallet: Id, pool: Id, coin: string, address: string, url: string,
      password: string)
    requires SideReady(a, wallet, pool, coin, address, url, password) && Adds(a, b)
    ensures SideReady(b, wallet, pool, coin, address, url, password)
  {
    hide PaysTo, LeadsTo;
  }

  lemma MinerStays(s: State, a: State, b: State, m: Miner, q: QuickInput, minted: Id)
    requires GoodMiner(s, a, m, q, minted) && b.miners == a.miners
    ensures m.id in b.miners && b.miners[m.id] == m && GoodMiner(s, b, b.miners[m.id], q, minted)
  {
    hide OfEntry;
  }

  lemma ReuseStays(s: State, s1: State, t: State, p: Picked, q: QuickInput, order: QuickOrder)
    requires s1.wallets == s.wallets && s1.pools == s.pools
    requires GoodWallet(s1, t, p.wallet, q.coin, q.walletAddress, order.wallets)
    requires GoodPool(s1, t, p.pool, q.poolUrl, q.poolPassword, order.pools)
    ensures (exists k :: k in order.wallets && k in s.wallets && PaysTo(s.wallets[k], q.coin, q.walletAddress)) ==>
              p.wallet in s.wallets
    ensures (exists k :: k in order.pools && k in s.pools && LeadsTo(s.pools[k], q.poolUrl, q.poolPassword)) ==>
              p.pool in s.pools
  {
    hide PaysTo, LeadsTo;
  }

  lemma SheetAdds(p: Picked, q: QuickInput, miner: Id, id: Id)
    requires id !in p.state.sheets
    ensures var t := WithQuickSheet(p, q, miner, id);
            && Adds(p.state, t) && id in t.sheets && t.sheets.Keys == p.state.sheets.Keys + {id}
            && t.sheets[id] == QuickSheet(q, id, p.wallet, p.pool, miner, p.wallet2, p.pool2)
            && t.rigs == Redirected(p.state.rigs, q.rigIds, id)
            && t.miners == p.state.miners
  {
    hide Redirected;
  }

  lemma PickedAsAsked(s: State, s1: State, m: Miner, p: Picked, last: Picked, q: QuickInput, minted: QuickFresh,
      order: QuickOrder)
    requires GoodMiner(s, s1, m, q, minted.miner) && Adds(s, s1) && s1 == s.(miners := s1.miners)
    requires p == PickPrimary(s1, q, minted, order) && last == PickSecondary(p, q, minted, order)
    requires KeyedById(s1) && FreshParts(s1, minted)
    ensures var t := WithQuickSheet(last, q, m.id, minted.sheet);
            && Adds(s, t) && minted.sheet in t.sheets && t.sheets.Keys == s.sheets.Keys + {minted.sheet}
            && SheetAsAsked(s, t, t.sheets[minted.sheet], q, minted, order)
            && t.rigs == Redirected(s.rigs, q.rigIds, minted.sheet)
  {
    hide Adds, GoodWallet, GoodPool, SideReady, GoodMiner, PickPrimary, PickSecondary, PaysTo, LeadsTo,
         QuickSecondary, Redirected, KeyedById, WithQuickSheet;
    PrimaryIsReady(s1, q, minted, order);
    SecondaryIsReady(p, q, minted, order);
    SheetAdds(last, q, m.id, minted.sheet);
    var t := WithQuickSheet(last, q, m.id, minted.sheet);
    AddsBoth(s, s1, p.state);
    AddsBoth(p.state, last.state, t);
    AddsBoth(s, p.state, t);
    SideStays(p.state, t, p.wallet, p.pool, q.coin, q.walletAddress, q.poolUrl, q.poolPassword);
    ReuseStays(s, s1, p.state, p, q, order);
    MinerStays(s, s1, t, m, q, minted.miner);
    if QuickSecondary(q) {
      SideStays(last.state, t, last.wallet2, last.pool2, q.secondaryCoin, q.secondaryWalletAddress,
        q.secondaryPoolUrl, q.secondaryPoolPassword);
    }
  }

  /**
   A quick setup that is stored leaves a sheet that mines what was asked for, to that address and at that
   pool, with resources that were there where they fit; the chosen rigs have it with a new revision, and
   no other rig and nothing stored is changed.
   */
  lemma QuickSheetIsReady(s: State, q: QuickInput, checks: QuickChecks, minted: QuickFresh, order: QuickOrder)
    requires KeyedById(s) && FreshFor(s, minted) && QuickSetup(s, q, checks, minted, order).Save?
    ensures var t := QuickSetup(s, q, checks, minted, order).next;
            && Adds(s, t) && minted.sheet in t.sheets && t.sheets.Keys == s.sheets.Keys + {minted.sheet}
            && SheetAsAsked(s, t, t.sheets[minted.sheet], q, minted, order)
            && RigsAsAsked(s.rigs, t.rigs, q.rigIds, minted.sheet)
  {
    QuickStages(s, q, checks, minted, order);
    MinerIsGood(s, q, order.miners, minted.miner);
    var (s1, m) := WithMiner(s, q, order.miners, minted.miner);
    var p := PickPrimary(s1, q, minted, order);
    PickedAsAsked(s, s1, m, p, PickSecondary(p, q, minted, order), q, minted, order);
    RedirectedAsAsked(s.rigs, q.rigIds, minted.sheet);
    hide WithMiner, PickPrimary, PickSecondary, WithQuickSheet, SheetAsAsked, RigsAsAsked, GoodMiner, QuickSetup;
  }

  /** In a reachable store every quick setup finds what that asks for. */
  lemma QuickInRun(cat: Catalog, events: seq<Event>, op: Op)
    requires Possible(cat, NewStore(), events) && op.OpQuick? && Enabled(Run(cat, NewStore(), events), op)
    ensures var s := Run(cat, NewStore(), events).memory; KeyedById(s) && FreshFor(s, op.quick)
  {
    hide Sound, Possible, Run;
    NewStoreSound();
    RunSound(cat, NewStore(), events);
    var db := Run(cat, NewStore(), events);
    KeysKnown(db.memory, db.issued);
    var q := op.quick;
    var ids := [q.miner, q.wallet, q.pool, q.wallet2, q.pool2, q.sheet];
    assert ids[1] != ids[3] && ids[2] != ids[4];
    assert forall x :: x in ids ==> x in Drawn(op);
  }

  // ----- the rest -----

  lemma {:induction false} EnqueuedTold(rigs: map<Id, Rig>, rigIds: seq<Id>, action: Action, profile: string,
      minted: seq<Id>, r: Id)
    requires |minted| == |rigIds| && r in rigs
    ensures var was, now := rigs[r], EnqueuedAll(rigs, rigIds, action, profile, minted)[r];
            && now == was.(commands := now.commands)
            && |now.commands| == |was.commands| + Listed(rigIds, |rigIds|, r)
            && now.commands[..|was.commands|] == was.commands
            && forall i :: |was.commands| <= i < |now.commands| ==>
                 now.commands[i].action == action && now.commands[i].status.Pending?
  {
    if rigIds != [] {
      var n := |rigIds| - 1;
      EnqueuedTold(rigs, rigIds[..n], action, profile, minted[..n], r);
      ListedFront(rigIds, n, n, r);
    }
  }

  /** A command for several rigs is queued once for each time a rig is listed, or, if any is unknown, for none. */
  lemma BulkIsQueued(s: State, rigIds: seq<Id>, action: Option<Action>, profile: string, minted: seq<Id>)
    requires |minted| == |rigIds|
    ensures var e := AddCommands(s, rigIds, action, profile, minted);
            && (e.Save? <==>
                  && action.Some? && !action.value.Shell? && !action.value.SmartTune? && rigIds != []
                  && forall r :: r in rigIds ==> r in s.rigs)
            && (!e.Save? ==> e.Reject? && e.memory == s)
            && (e.Save? ==>
                  && e.next == s.(rigs := e.next.rigs) && e.next.rigs.Keys == s.rigs.Keys
                  && forall r :: r in s.rigs ==>
                       var was, now := s.rigs[r], e.next.rigs[r];
                       && now == was.(commands := now.commands)
                       && |now.commands| == |was.commands| + Listed(rigIds, |rigIds|, r)
                       && now.commands[..|was.commands|] == was.commands
                       && forall i :: |was.commands| <= i < |now.commands| ==>
                            now.commands[i].action == action.value && now.commands[i].status.Pending?)
  {
    if action.Some? {
      forall r | r in s.rigs
        ensures var was, now := s.rigs[r], EnqueuedAll(s.rigs, rigIds, action.value, profile, minted)[r];
                && now == was.(commands := now.commands)
                && |now.commands| == |was.commands| + Listed(rigIds, |rigIds|, r)
                && now.commands[..|was.commands|] == was.commands
                && forall i :: |was.commands| <= i < |now.commands| ==>
                     now.commands[i].action == action.value && now.commands[i].status.Pending?
      {
        EnqueuedTold(s.rigs, rigIds, action.value, profile, minted, r);
      }
    }
    hide EnqueuedAll, Listed;
  }

  /** The oldest command that is pending, or whose lease ran out, is handed out, for as long as its kind takes. */
  lemma OldestIsLeased(s: State, rigId: Id, i: nat, now: int)
    requires rigId in s.rigs && i < |s.rigs[rigId].commands|
    requires var queue := s.rigs[rigId].commands;
             && (queue[i].status.Pending? || (queue[i].status.Running? && queue[i].leaseUntil < now))
             && forall j :: 0 <= j < i ==>
                  !queue[j].status.Pending? && (queue[j].status.Running? ==> now <= queue[j].leaseUntil)
    ensures var e := NextCommand(s, rigId, now);
            && e.Save? && OnlyRig(s, e.next, rigId)
            && var was, after := s.rigs[rigId], e.next.rigs[rigId];
               var lease := if was.commands[i].action.SmartTune? then 3600
                            else if was.commands[i].action.DriverUpdate? then 1800 else 30;
               && after == was.(commands := after.commands)
               && after.commands == was.commands[i := was.commands[i].(status := Running,
                    attempt := was.commands[i].attempt + 1, leaseUntil := now + lease)]
  {
    assert FirstLeasable(s.rigs[rigId].commands, now) == i;
  }

  lemma SavedSchedule(s: State, value: Schedule, minted: Id, textOk: bool)
    ensures var e := SaveSchedule(s, value, minted, textOk);
            && (e.Save? <==>
                  && textOk && value.rigIds != [] && (forall r :: r in value.rigIds ==> r in s.rigs)
                  && (value.action.ApplySheet? ==> value.sheetId != "")
                  && (value.action.Send? ==> value.action.action in {Start, Stop, Restart, Reboot, Shutdown})
                  && (value.sheetId == "" || value.sheetId in s.sheets) && (value.id == "" || value.id in s.schedules))
            && (!e.Save? ==> e.Reject? && e.memory == s)
            && (e.Save? ==>
                  && e.next == s.(schedules := e.next.schedules)
                  && Put(s.schedules, e.next.schedules, if value.id != "" then value.id else minted,
                       value.(id := if value.id != "" then value.id else minted,
                              lastRunMinute := if value.id != "" then s.schedules[value.id].lastRunMinute
                                               else value.lastRunMinute)))
  {
  }

  lemma {:induction false} DroppedListed(ids: seq<Id>, id: Id, x: Id)
    ensures var left := Dropped(ids, id);
            Listed(left, |left|, x) == if x == id then 0 else Listed(ids, |ids|, x)
  {
    if ids != [] {
      var n := |ids| - 1;
      DroppedListed(ids[..n], id, x);
      ListedFront(ids, n, n, x);
      var front := Dropped(ids[..n], id);
      if ids[n] != id {
        var left := Dropped(ids, id);
        assert left == front + [ids[n]] && left[..|front|] == front;
        ListedFront(left, |front|, |front|, x);
      } else {
        assert Dropped(ids, id) == front;
      }
    }
  }

  /** A deleted rig is gone from the fleet and from every schedule; a schedule left without rigs is switched off. */
  lemma DeletedRigIsGone(s: State, rigId: Id)
    ensures var e := DeleteRig(s, rigId);
            && (e.Save? <==> rigId in s.rigs)
            && (e.Save? ==>
                  && e.next == s.(rigs := s.rigs - {rigId}, schedules := e.next.schedules)
                  && e.next.schedules.Keys == s.schedules.Keys
                  && forall k :: k in s.schedules ==>
                       var was, now := s.schedules[k], e.next.schedules[k];
                       && now == was.(rigIds := now.rigIds, enabled := now.enabled)
                       && (now.enabled <==> was.enabled && now.rigIds != [])
                       && forall x :: Listed(now.rigIds, |now.rigIds|, x)
                            == if x == rigId then 0 else Listed(was.rigIds, |was.rigIds|, x))
  {
    forall k, x | k in s.schedules
      ensures var now := Unscheduled(s.schedules[k], rigId);
              Listed(now.rigIds, |now.rigIds|, x)
                == if x == rigId then 0 else Listed(s.schedules[k].rigIds, |s.schedules[k].rigIds|, x)
    {
      DroppedListed(s.schedules[k].rigIds, rigId, x);
    }
    hide Dropped, Listed;
  }
}
