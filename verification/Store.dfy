/**
 The controller's store object. Every method changes the state in place, saves it, and leaves
 the store as the step of StoreRuns with the same effect does, whatever its arguments; so what
 StoreIntegrity and StoreRevision prove about runs of steps holds for runs of calls.

 `diskOk` says whether creating the directory, writing the temporary file and renaming it all
 succeeded.
 */
module ControllerStore {
  import opened Wrappers
  import opened Tuning
  import opened CommandQueue
  import opened Templates
  import opened StoreState
  import opened StoreEffects
  import opened StoreRuns

  datatype Outcome = Accepted | Refused(error: Error) | NotSaved

  /** What the caller of an operation is told. */
  function Reported(e: Effect, saved: bool): Outcome {
    match e
    case Reject(_, error) => Refused(error)
    case Done(_) => Accepted
    case Save(_) => if saved then Accepted else NotSaved
  }

  class Store {
    const catalog: Catalog
    var state: State
    var lastSaved: State
    ghost var issued: set<Id>

    ghost function View(): Db
      reads this
    {
      Db(state, lastSaved, issued)
    }

    constructor (catalog: Catalog)
      ensures this.catalog == catalog && View() == NewStore()
    {
      this.catalog := catalog;
      var farms := map["starter-gpu-farm" := Farm("starter-gpu-farm", "GPU Farm")];
      farms := farms["starter-cpu-farm" := Farm("starter-cpu-farm", "CPU Farm")];
      state := EMPTY.(farms := farms);
      lastSaved := EMPTY.(farms := farms);
      issued := {"starter-gpu-farm", "starter-cpu-farm"};
    }

    /** saveLocked, with rollbackLocked on failure. */
    method Save(diskOk: bool) returns (outcome: Outcome)
      modifies `state, `lastSaved
      ensures state == lastSaved == if diskOk then old(state) else old(lastSaved)
      ensures outcome == if diskOk then Accepted else NotSaved
    {
      if !diskOk {
        state := lastSaved;
        return NotSaved;
      }
      lastSaved := state;
      return Accepted;
    }

    /** A process start: the last saved document is read back. */
    method Restart()
      modifies this
      ensures View() == old(View()).(memory := old(lastSaved))
    {
      state := lastSaved;
    }

    /** bumpWorkersForResourceLocked: the rigs in any order. */
    method BumpWorkers(kind: Resource, id: Id)
      modifies `state
      ensures state == Bumped(old(state), kind, id)
    {
      hide Affected, BumpRig;
      var rigs := state.rigs;
      var left := rigs.Keys;
      while left != {}
        invariant left <= state.rigs.Keys == rigs.Keys
        invariant forall r :: r in rigs ==>
                    rigs[r] == if r !in left
                        && Affected(state.sheets, state.rigs[r], kind, id) then BumpRig(state.rigs[r])
                        else state.rigs[r]
        decreases |left|
      {
        var r :| r in left;
        if Affected(state.sheets, rigs[r], kind, id) {
          rigs := rigs[r := BumpRig(rigs[r])];
        }
        left := left - {r};
      }
      assert rigs == BumpedRigs(state, kind, id);
      state := state.(rigs := rigs);
    }

    method SaveFarm(value: Farm, minted: Id, textOk: bool, diskOk: bool) returns (outcome: Outcome)
      modifies this
      ensures View() == Settled(old(View()), StoreEffects.SaveFarm(old(state), value, minted, textOk), diskOk, {minted})
      ensures outcome == Reported(StoreEffects.SaveFarm(old(state), value, minted, textOk), diskOk)
    {
      issued := issued + {minted};
      if !textOk { return Refused(Invalid); }
      var stored := value;
      if stored.id == "" {
        stored := stored.(id := minted);
      } else if stored.id !in state.farms {
        return Refused(NotFound);
      }
      state := state.(farms := state.farms[stored.id := stored]);
      outcome := Save(diskOk);
    }

    method SaveWallet(value: Wallet, minted: Id, textOk: bool, diskOk: bool) returns (outcome: Outcome)
      modifies this
      ensures View() == Settled(old(View()), StoreEffects.SaveWallet(old(state), value, minted, textOk), diskOk,
              {minted})
      ensures outcome == Reported(StoreEffects.SaveWallet(old(state), value, minted, textOk), diskOk)
    {
      hide Bumped;
      issued := issued + {minted};
      if !textOk { return Refused(Invalid); }
      var stored := value;
      if stored.id == "" {
        stored := stored.(id := minted);
      } else if stored.id !in state.wallets {
        return Refused(NotFound);
      }
      state := state.(wallets := state.wallets[stored.id := stored]);
      BumpWorkers(WalletOf, stored.id);
      outcome := Save(diskOk);
    }

    method SavePool(value: Pool, minted: Id, textOk: bool, diskOk: bool) returns (outcome: Outcome)
      modifies this
      ensures View() == Settled(old(View()), StoreEffects.SavePool(old(state), value, minted, textOk), diskOk, {minted})
      ensures outcome == Reported(StoreEffects.SavePool(old(state), value, minted, textOk), diskOk)
    {
      hide Bumped;
      issued := issued + {minted};
      if !textOk { return Refused(Invalid); }
      var stored := value;
      var affectsMining := false;
      if stored.id == "" {
        stored := stored.(id := minted);
      } else if stored.id in state.pools {
        var previous := state.pools[stored.id];
        affectsMining := previous.url != stored.url || previous.password != stored.password;
      } else {
        return Refused(NotFound);
      }
      state := state.(pools := state.pools[stored.id := stored]);
      if affectsMining {
        BumpWorkers(PoolOf, stored.id);
      }
      outcome := Save(diskOk);
    }

    /** The first other miner of the same catalog entry, looked for in iteration order. */
    method FindTwin(value: Miner, order: seq<Id>) returns (twin: Option<Id>)
      ensures twin == CatalogTwin(state.miners, value, order)
    {
      for i := 0 to |order|
        invariant CatalogTwin(state.miners, value, order) == CatalogTwin(state.miners, value, order[i..])
      {
        if order[i] in state.miners {
          var existing := state.miners[order[i]];
          if existing.catalogId == value.catalogId && existing.id != value.id {
            return Some(existing.id);
          }
        }
      }
      twin := None;
    }

    method SaveMiner(value: Miner, minted: Id, textOk: bool, order: seq<Id>, diskOk: bool) returns (outcome: Outcome)
      modifies this
      ensures View() == Settled(old(View()), StoreEffects.SaveMiner(old(state), value, minted, textOk, order), diskOk,
              {minted})
      ensures outcome == Reported(StoreEffects.SaveMiner(old(state), value, minted, textOk, order), diskOk)
    {
      hide Bumped, CatalogTwin;
      issued := issued + {minted};
      if !textOk { return Refused(Invalid); }
      var stored := value;
      if stored.catalogId != "" {
        var twin := FindTwin(value, order);
        if twin.Some? {
          if value.id != "" { return Refused(Invalid); }
          stored := stored.(id := twin.value);
        }
      }
      if stored.id == "" {
        stored := stored.(id := minted);
      } else if stored.id in state.miners {
        var previous := state.miners[stored.id];
        if stored.catalogId == "" {
          stored := stored.(catalogId := previous.catalogId);
        }
        if stored.managedBinary && stored.binarySha256 == "" && stored.binaryName == previous.binaryName {
          stored := stored.(binarySha256 := previous.binarySha256);
        }
        if stored.managedBinary && stored.packageSha256 == "" && stored.entryPoint == previous.entryPoint {
          stored := stored.(packageSha256 := previous.packageSha256);
        }
      } else {
        return Refused(NotFound);
      }
      state := state.(miners := state.miners[stored.id := stored]);
      BumpWorkers(MinerOf, stored.id);
      outcome := Save(diskOk);
    }

    method FallbackFits(v: Sheet, miner: Miner) returns (ok: bool)
      requires v.minerId in state.miners && miner == state.miners[v.minerId]
      ensures ok == FallbackAccepted(state, v)
    {
      if v.fallbackId != "" {
        if v.fallbackId !in state.sheets { return false; }
        var fallback := state.sheets[v.fallbackId];
        if v.id != "" && fallback.id == v.id { return false; }
        if miner.catalogId != EPIC { return false; }
        if Fold(v.deviceType) != Fold(fallback.deviceType) { return false; }
        if fallback.fallbackId != "" { return false; }
      }
      ok := true;
    }

    method SecondaryFits(v: Sheet, miner: Miner) returns (ok: bool)
      requires v.minerId in state.miners && miner == state.miners[v.minerId]
      ensures ok == SecondaryAccepted(state, v)
    {
      if HasSecondary(v) {
        if v.secondaryWalletId !in state.wallets || v.secondaryPoolId !in state.pools || v.secondaryCoin == ""
            || v.secondaryAlgorithm == ""
        {
          return false;
        }
        if v.secondaryDeviceType != "CPU" && v.secondaryDeviceType != "GPU" { return false; }
        if v.secondaryDeviceType == v.deviceType { return false; }
        if Fold(v.secondaryCoin) != Fold(state.wallets[v.secondaryWalletId].coin) { return false; }
        if miner.catalogId != SRB { return false; }
      }
      ok := true;
    }

    method SaveSheet(value: Sheet, minted: Id, textOk: bool, diskOk: bool) returns (outcome: Outcome)
      modifies this
      ensures View() == Settled(old(View()), StoreEffects.SaveSheet(catalog, old(state), value, minted, textOk), diskOk,
              {minted})
      ensures outcome == Reported(StoreEffects.SaveSheet(catalog, old(state), value, minted, textOk), diskOk)
    {
      hide Bumped, Fold, FallbackAccepted, SecondaryAccepted;
      issued := issued + {minted};
      if !textOk || value.walletId !in state.wallets || value.poolId !in state.pools || value.minerId !in state.miners {
        return Refused(Invalid);
      }
      var wallet, miner := state.wallets[value.walletId], state.miners[value.minerId];
      var stored := value.(algorithm := catalog.forCoin(miner.catalogId, value.coin, value.algorithm));
      if stored.failoverAfter < 0 || stored.failoverAfter > 600 || stored.returnAfter < 0 || stored.returnAfter > 600 {
        return Refused(Invalid);
      }
      var fallbackOk := FallbackFits(stored, miner);
      if !fallbackOk { return Refused(Invalid); }
      var secondaryOk := SecondaryFits(stored, miner);
      if !secondaryOk { return Refused(Invalid); }
      if stored.coin == "" {
        stored := stored.(coin := wallet.coin);
      }
      if Fold(stored.coin) != Fold(wallet.coin) { return Refused(Invalid); }
      if stored.id == "" {
        stored := stored.(id := minted);
      } else if stored.id !in state.sheets {
        return Refused(NotFound);
      }
      state := state.(sheets := state.sheets[stored.id := stored]);
      BumpWorkers(SheetOf, stored.id);
      outcome := Save(diskOk);
    }

    method SaveProfile(value: Profile, minted: Id, textOk: bool, diskOk: bool) returns (outcome: Outcome)
      modifies this
      ensures View() == Settled(old(View()), StoreEffects.SaveProfile(old(state), value, minted, textOk), diskOk,
              {minted})
      ensures outcome == Reported(StoreEffects.SaveProfile(old(state), value, minted, textOk), diskOk)
    {
      hide Bumped, ParseInt;
      issued := issued + {minted};
      if !textOk || (value.vendor != "NVIDIA" && value.vendor != "AMD") { return Refused(Invalid); }
      for i := 0 to |value.settings|
        invariant SettingsAccepted(value.settings[..i])
        invariant View() == old(View()).(issued := old(issued) + {minted})
      {
        var setting := value.settings[i];
        if setting.fan < 0 || setting.fan > 100 || setting.power < 0 { return Refused(Invalid); }
        if setting.coreClock > 0 && setting.coreOffset != 0 { return Refused(Invalid); }
        if setting.memoryClock > 0 && setting.memoryOffset != 0 { return Refused(Invalid); }
        if setting.selector != "*" && ParseInt(setting.selector) < 0 { return Refused(Invalid); }
      }
      assert value.settings[..|value.settings|] == value.settings;
      var stored := value;
      if stored.id == "" {
        stored := stored.(id := minted);
      } else if stored.id !in state.profiles {
        return Refused(NotFound);
      }
      state := state.(profiles := state.profiles[stored.id := stored]);
      BumpWorkers(ProfileOf, stored.id);
      outcome := Save(diskOk);
    }

    /** Whether another rig has this name, the rigs in any order. */
    method NameInUse(name: string, rigId: Id) returns (taken: bool)
      ensures taken == NameTaken(state.rigs, name, rigId)
    {
      hide Fold;
      var left := state.rigs.Keys;
      while left != {}
        invariant left <= state.rigs.Keys
        invariant forall r :: r in state.rigs && r !in left ==> r == rigId || Fold(state.rigs[r].name) != Fold(name)
        decreases |left|
      {
        var r :| r in left;
        if r != rigId && Fold(state.rigs[r].name) == Fold(name) {
          return true;
        }
        left := left - {r};
      }
      taken := false;
    }

    method AssignWorker(rigId: Id, a: Assignment, diskOk: bool) returns (outcome: Outcome)
      modifies this
      ensures View() == Settled(old(View()), StoreEffects.AssignWorker(old(state), rigId, a), diskOk, {})
      ensures outcome == Reported(StoreEffects.AssignWorker(old(state), rigId, a), diskOk)
    {
      hide NameTaken, Assigned, AutofanAccepted, WatchdogAccepted;
      if rigId !in state.rigs { return Refused(NotFound); }
      if a.farmId != "" && a.farmId !in state.farms { return Refused(Invalid); }
      if a.sheetId != "" && a.sheetId !in state.sheets { return Refused(Invalid); }
      if a.profileId != "" && a.profileId !in state.profiles { return Refused(Invalid); }
      if !AutofanAccepted(a.autofan) || !WatchdogAccepted(a.watchdog) { return Refused(Invalid); }
      if a.name != "" {
        var taken := NameInUse(a.name, rigId);
        if taken { return Refused(Invalid); }
      }
      var rig := Reassign(state.rigs[rigId], a);
      state := state.(rigs := state.rigs[rigId := rig]);
      outcome := Save(diskOk);
    }

    /** The assignment proper: the revision rises only if what the rig mines under may change. */
    static method Reassign(stored: Rig, a: Assignment) returns (rig: Rig)
      ensures rig == Assigned(stored, a)
    {
      var watchdog := if a.watchdog.enabled then a.watchdog else NO_WATCHDOG;
      var autofan := if a.autofan.enabled then a.autofan else NO_AUTOFAN;
      rig := stored;
      if a.name != "" {
        rig := rig.(name := a.name);
      }
      rig := rig.(farmId := a.farmId);
      var currentWatchdog := if rig.desired.watchdog.enabled then rig.desired.watchdog else NO_WATCHDOG;
      var currentAutofan := if rig.desired.autofan.enabled then rig.desired.autofan else NO_AUTOFAN;
      if rig.desired.sheetId != a.sheetId || rig.desired.profileId != a.profileId || currentWatchdog != watchdog
          || currentAutofan != autofan
      {
        rig := BumpRig(rig);
      }
      rig := rig.(desired :=
          rig.desired.(sheetId := a.sheetId, profileId := a.profileId, watchdog := watchdog, autofan := autofan));
    }

    method SetPowerPolicy(watts: int, diskOk: bool) returns (outcome: Outcome)
      modifies this
      ensures View() == Settled(old(View()), StoreEffects.SetPowerPolicy(old(state), watts), diskOk, {})
      ensures outcome == Reported(StoreEffects.SetPowerPolicy(old(state), watts), diskOk)
    {
      if watts < 0 || watts > 600 { return Refused(Invalid); }
      hide BumpRig;
      if state.maxPowerW == watts { return Accepted; }
      var rigs := state.rigs;
      var left := rigs.Keys;
      while left != {}
        invariant left <= state.rigs.Keys == rigs.Keys
        invariant forall r :: r in rigs ==>
                    rigs[r] == if r !in left
                        && |state.rigs[r].telemetry.gpus| != 0 then BumpRig(state.rigs[r]) else state.rigs[r]
        decreases |left|
      {
        var r :| r in left;
        if |rigs[r].telemetry.gpus| != 0 {
          rigs := rigs[r := BumpRig(rigs[r])];
        }
        left := left - {r};
      }
      assert rigs == PowerBumped(state.rigs);
      state := state.(maxPowerW := watts, rigs := rigs);
      outcome := Save(diskOk);
    }

    method RigInUse(kind: Kind, id: Id) returns (used: bool)
      ensures used == RigRefers(state, kind, id)
    {
      var left := state.rigs.Keys;
      while left != {}
        invariant left <= state.rigs.Keys
        invariant forall r :: r in state.rigs && r !in left ==>
                    match kind
                    case Farms => state.rigs[r].farmId != id
                    case Sheets => state.rigs[r].desired.sheetId != id
                    case Profiles => state.rigs[r].desired.profileId != id
                    case _ => true
        decreases |left|
      {
        var r :| r in left;
        var rig := state.rigs[r];
        if (kind.Farms? && rig.farmId == id) || (kind.Sheets? && rig.desired.sheetId == id)
            || (kind.Profiles? && rig.desired.profileId == id)
        {
          return true;
        }
        left := left - {r};
      }
      used := false;
    }

    method SheetInUse(kind: Kind, id: Id) returns (used: bool)
      ensures used == SheetRefers(state, kind, id)
    {
      var left := state.sheets.Keys;
      while left != {}
        invariant left <= state.sheets.Keys
        invariant forall x :: x in state.sheets && x !in left ==>
                    match kind
                    case Wallets => state.sheets[x].walletId != id && state.sheets[x].secondaryWalletId != id
                    case Pools => state.sheets[x].poolId != id && state.sheets[x].secondaryPoolId != id
                    case Miners => state.sheets[x].minerId != id
                    case Sheets => state.sheets[x].fallbackId != id
                    case _ => true
        decreases |left|
      {
        var x :| x in left;
        var sheet := state.sheets[x];
        if || (kind.Wallets? && (sheet.walletId == id || sheet.secondaryWalletId == id))
           || (kind.Pools? && (sheet.poolId == id || sheet.secondaryPoolId == id))
           || (kind.Miners? && sheet.minerId == id)
           || (kind.Sheets? && sheet.fallbackId == id)
        {
          return true;
        }
        left := left - {x};
      }
      used := false;
    }

    method ScheduleInUse(kind: Kind, id: Id) returns (used: bool)
      ensures used == ScheduleRefers(state, kind, id)
    {
      if !kind.Sheets? { return false; }
      var left := state.schedules.Keys;
      while left != {}
        invariant left <= state.schedules.Keys
        invariant forall x :: x in state.schedules && x !in left ==> state.schedules[x].sheetId != id
        decreases |left|
      {
        var x :| x in left;
        if state.schedules[x].sheetId == id { return true; }
        left := left - {x};
      }
      used := false;
    }

    method DeleteResource(kind: Kind, id: Id, filesOk: bool, diskOk: bool) returns (outcome: Outcome)
      modifies this
      ensures View() == Settled(old(View()), Delete(old(state), kind, id, filesOk), diskOk, {})
      ensures outcome == Reported(Delete(old(state), kind, id, filesOk), diskOk)
    {
      hide RigRefers, SheetRefers, ScheduleRefers;
      if !Exists(state, kind, id) { return Refused(NotFound); }
      var bySheet := SheetInUse(kind, id);
      if bySheet { return Refused(Invalid); }
      var byRig := RigInUse(kind, id);
      if byRig { return Refused(Invalid); }
      var bySchedule := ScheduleInUse(kind, id);
      if bySchedule { return Refused(Invalid); }
      match kind {
        case Farms => state := state.(farms := state.farms - {id});
        case Wallets => state := state.(wallets := state.wallets - {id});
        case Pools => state := state.(pools := state.pools - {id});
        case Miners =>
          state := state.(miners := state.miners - {id});
          if !filesOk { return Refused(Invalid); }
        case Sheets => state := state.(sheets := state.sheets - {id});
        case Profiles => state := state.(profiles := state.profiles - {id});
        case Schedules => state := state.(schedules := state.schedules - {id});
      }
      outcome := Save(diskOk);
    }

    method Enroll(name: string, minted: Id, authorized: bool, diskOk: bool) returns (outcome: Outcome)
      modifies this
      ensures View() == Settled(old(View()), StoreEffects.Enroll(old(state), name, minted, authorized), diskOk,
              {minted})
      ensures outcome == Reported(StoreEffects.Enroll(old(state), name, minted, authorized), diskOk)
    {
      hide NameTaken;
      issued := issued + {minted};
      if name == "" || !authorized { return Refused(Invalid); }
      var taken := NameInUse(name, "");
      if taken { return Refused(Invalid); }
      state := state.(rigs := state.rigs[minted := FRESH_RIG.(id := minted, name := name)]);
      outcome := Save(diskOk);
    }

    // ----- rigs and schedules -----

    /** The metrics are in memory before the telemetry file is written; if that fails they stay there unsaved. */
    method Heartbeat(rigId: Id, telemetry: Telemetry, recorded: bool, diskOk: bool) returns (outcome: Outcome)
      modifies this
      ensures View() == Settled(old(View()), StoreEffects.Heartbeat(old(state), rigId, telemetry, recorded), diskOk, {})
      ensures outcome == Reported(StoreEffects.Heartbeat(old(state), rigId, telemetry, recorded), diskOk)
    {
      if rigId !in state.rigs { return Refused(NotFound); }
      state := state.(rigs := state.rigs[rigId := state.rigs[rigId].(telemetry := telemetry)]);
      if !recorded { return Refused(Invalid); }
      outcome := Save(diskOk);
    }

    /**
     The last part of a package upload, under the lock again: the definition must still be the one
     seen before the upload.
     */
    method FinishUpload(minerId: Id, seen: Miner, binary: string, package: string, fileOk: bool, diskOk: bool)
      returns (outcome: Outcome)
      modifies this
      ensures View() == Settled(old(View()), UploadMiner(old(state), minerId, seen, binary, package, fileOk), diskOk,
              {})
      ensures outcome == Reported(UploadMiner(old(state), minerId, seen, binary, package, fileOk), diskOk)
    {
      hide Bumped;
      if minerId !in state.miners { return Refused(NotFound); }
      var current := state.miners[minerId];
      if current != seen || !fileOk { return Refused(Invalid); }
      state := state.(miners :=
          state.miners[minerId := current.(binarySha256 := binary, packageSha256 := package, managedBinary := true)]);
      BumpWorkers(MinerOf, minerId);
      outcome := Save(diskOk);
    }

    /** The rig is taken out of every schedule; a schedule left without rigs is switched off. */
    method DeleteRig(rigId: Id, diskOk: bool) returns (outcome: Outcome)
      modifies this
      ensures View() == Settled(old(View()), StoreEffects.DeleteRig(old(state), rigId), diskOk, {})
      ensures outcome == Reported(StoreEffects.DeleteRig(old(state), rigId), diskOk)
    {
      hide UnscheduledAll;
      if rigId !in state.rigs { return Refused(NotFound); }
      var schedules := UnscheduleEverywhere(state.schedules, rigId);
      state := state.(rigs := state.rigs - {rigId}, schedules := schedules);
      outcome := Save(diskOk);
    }

    static method UnscheduleEverywhere(stored: map<Id, Schedule>, rigId: Id) returns (schedules: map<Id, Schedule>)
      ensures schedules == UnscheduledAll(stored, rigId)
    {
      hide Unscheduled;
      schedules := stored;
      var left := stored.Keys;
      while left != {}
        invariant left <= stored.Keys == schedules.Keys
        invariant forall k :: k in stored ==>
                  schedules[k] == if k in left then stored[k] else Unscheduled(stored[k], rigId)
        decreases |left|
      {
        var k :| k in left;
        var schedule := Unschedule(schedules[k], rigId);
        schedules := schedules[k := schedule];
        left := left - {k};
      }
    }

    static method Unschedule(schedule: Schedule, rigId: Id) returns (r: Schedule)
      ensures r == Unscheduled(schedule, rigId)
    {
      var filtered: seq<Id> := [];
      for i := 0 to |schedule.rigIds|
        invariant filtered == Dropped(schedule.rigIds[..i], rigId)
      {
        assert schedule.rigIds[..i + 1][..i] == schedule.rigIds[..i];
        if schedule.rigIds[i] != rigId {
          filtered := filtered + [schedule.rigIds[i]];
        }
      }
      assert schedule.rigIds[..|schedule.rigIds|] == schedule.rigIds;
      r := schedule.(rigIds := filtered);
      if |filtered| == 0 {
        r := r.(enabled := false);
      }
    }

    method SaveSchedule(value: Schedule, minted: Id, textOk: bool, diskOk: bool) returns (outcome: Outcome)
      modifies this
      ensures View() == Settled(old(View()), StoreEffects.SaveSchedule(old(state), value, minted, textOk), diskOk,
              {minted})
      ensures outcome == Reported(StoreEffects.SaveSchedule(old(state), value, minted, textOk), diskOk)
    {
      issued := issued + {minted};
      if !textOk || !ScheduleActionAccepted(value) || |value.rigIds| == 0 { return Refused(Invalid); }
      for i := 0 to |value.rigIds|
        invariant View() == old(View()).(issued := old(issued) + {minted})
        invariant forall j :: 0 <= j < i ==> value.rigIds[j] in state.rigs
      {
        if value.rigIds[i] !in state.rigs { return Refused(Invalid); }
      }
      if value.sheetId != "" && value.sheetId !in state.sheets { return Refused(Invalid); }
      var stored := value;
      if stored.id == "" {
        stored := stored.(id := minted);
      } else if stored.id in state.schedules {
        stored := stored.(lastRunMinute := state.schedules[stored.id].lastRunMinute);
      } else {
        return Refused(NotFound);
      }
      state := state.(schedules := state.schedules[stored.id := stored]);
      outcome := Save(diskOk);
    }

    /** One due schedule: its rigs in their listed order, those that are gone skipped. */
    method RunDue(key: Id, now: Moment, tokens: Tokens)
      requires key in state.schedules && Due(state.schedules[key], now)
      modifies `state
      ensures state == RunOne(old(state), key, now, tokens)
    {
      hide Due;
      var schedule := state.schedules[key];
      var rigs := state.rigs;
      for i := 0 to |schedule.rigIds|
        invariant rigs == Visited(state.rigs, schedule, key, i, tokens)
      {
        var r := schedule.rigIds[i];
        if r in rigs {
          match schedule.action {
            case ApplySheet => rigs :=
                rigs[r := BumpRig(rigs[r].(desired := rigs[r].desired.(sheetId := schedule.sheetId)))];
            case Send(action) => rigs :=
                rigs[r := rigs[r].(commands := rigs[r].commands + [Queued(Token(tokens, key, i), action, "")])];
          }
        }
      }
      state := state.(rigs := rigs, schedules := state.schedules[key := schedule.(lastRunMinute := now.minute)]);
    }

    static lemma RunOneKeeps(s: State, key: Id, now: Moment, tokens: Tokens)
      requires key in s.schedules
      ensures !Due(s.schedules[key], now) ==> RunOne(s, key, now, tokens) == s
      ensures var t := RunOne(s, key, now, tokens);
              t.schedules.Keys == s.schedules.Keys && forall k :: k in s.schedules && k != key ==>
                  t.schedules[k] == s.schedules[k]
    {
      hide Due, Visited;
    }

    /** Every schedule once, in iteration order. */
    method RunEach(now: Moment, order: seq<Id>, tokens: Tokens) returns (changed: bool)
      requires Distinct(order) && forall k :: k in order <==> k in state.schedules
      modifies `state
      ensures state == RunAll(old(state), order, now, tokens)
      ensures changed == AnyDue(old(state), now)
      ensures !changed ==> state == old(state)
    {
      hide Due, RunOne;
      changed := false;
      for i := 0 to |order|
        invariant state == RunAll(old(state), order[..i], now, tokens)
        invariant state.schedules.Keys == old(state).schedules.Keys
        invariant forall j :: i <= j < |order| ==> state.schedules[order[j]] == old(state).schedules[order[j]]
        invariant changed ==> AnyDue(old(state), now)
        invariant !changed ==> state == old(state) && forall j :: 0 <= j < i ==>
                  !Due(old(state).schedules[order[j]], now)
      {
        assert order[..i + 1][..i] == order[..i];
        RunOneKeeps(state, order[i], now, tokens);
        if Due(state.schedules[order[i]], now) {
          RunDue(order[i], now, tokens);
          changed := true;
        }
      }
      assert order[..|order|] == order;
    }

    /** Saved only if a schedule was due. */
    method RunSchedules(now: Moment, order: seq<Id>, tokens: Tokens, diskOk: bool) returns (outcome: Outcome)
      requires Distinct(order) && forall k :: k in order <==> k in state.schedules
      modifies this
      ensures View() == Settled(old(View()), StoreEffects.RunSchedules(old(state), now, order, tokens), diskOk,
              tokens.Values)
      ensures outcome == Reported(StoreEffects.RunSchedules(old(state), now, order, tokens), diskOk)
    {
      hide AnyDue, RunAll;
      issued := issued + tokens.Values;
      var changed := RunEach(now, order, tokens);
      if !changed { return Accepted; }
      outcome := Save(diskOk);
    }

    // ----- quick setup -----

    method FindSameWallet(coin: string, address: string, order: seq<Id>) returns (found: Option<Wallet>)
      ensures found == FindWallet(state.wallets, coin, address, order)
    {
      hide Fold;
      for i := 0 to |order|
        invariant FindWallet(state.wallets, coin, address, order) == FindWallet(state.wallets, coin, address,
                  order[i..])
      {
        if order[i] in state.wallets && Fold(state.wallets[order[i]].coin) == Fold(coin)
            && state.wallets[order[i]].address == address
        {
          return Some(state.wallets[order[i]]);
        }
      }
      found := None;
    }

    method FindSamePool(url: string, password: string, order: seq<Id>) returns (found: Option<Pool>)
      ensures found == FindPool(state.pools, url, password, order)
    {
      for i := 0 to |order|
        invariant FindPool(state.pools, url, password, order) == FindPool(state.pools, url, password, order[i..])
      {
        if order[i] in state.pools && state.pools[order[i]].url == url && state.pools[order[i]].password == password {
          return Some(state.pools[order[i]]);
        }
      }
      found := None;
    }

    method FindCatalogMiner(entry: Miner, order: seq<Id>) returns (found: Option<Miner>)
      ensures found == FindEntry(state.miners, entry, order)
    {
      hide EntryMatches;
      for i := 0 to |order|
        invariant FindEntry(state.miners, entry, order) == FindEntry(state.miners, entry, order[i..])
      {
        if order[i] in state.miners && EntryMatches(entry, state.miners[order[i]]) {
          return Some(state.miners[order[i]]);
        }
      }
      found := None;
    }

    method UseWallet(coin: string, address: string, order: seq<Id>, minted: Id) returns (id: Id)
      modifies `state
      ensures (state, id) == WithWallet(old(state), coin, address, order, minted)
    {
      var found := FindSameWallet(coin, address, order);
      if found.Some? && found.value.id != "" { return found.value.id; }
      state := state.(wallets := state.wallets[minted := Wallet(minted, coin + " Wallet", coin, address)]);
      id := minted;
    }

    method UsePool(url: string, host: string, password: string, order: seq<Id>, minted: Id) returns (id: Id)
      modifies `state
      ensures (state, id) == WithPool(old(state), url, host, password, order, minted)
    {
      var found := FindSamePool(url, password, order);
      if found.Some? && found.value.id != "" { return found.value.id; }
      state := state.(pools := state.pools[minted := Pool(minted, host, url, password)]);
      id := minted;
    }

    method UseMiner(q: QuickInput, order: seq<Id>, minted: Id) returns (miner: Miner)
      requires q.minerId != "" ==> q.minerId in state.miners
      modifies `state
      ensures (state, miner) == WithMiner(old(state), q, order, minted)
    {
      if q.minerId != "" { return state.miners[q.minerId]; }
      var found := FindCatalogMiner(q.entry, order);
      if found.Some? && found.value.id != "" { return found.value; }
      miner := q.entry.(id := minted);
      state := state.(miners := state.miners[minted := miner]);
    }

    /** The new sheet is stored and the chosen rigs are pointed at it, one by one. */
    method StoreQuickSheet(sheet: Sheet, rigIds: seq<Id>)
      requires forall i :: 0 <= i < |rigIds| ==> rigIds[i] in state.rigs
      modifies `state
      ensures state == old(state).(sheets := old(state).sheets[sheet.id := sheet],
              rigs := Redirected(old(state).rigs, rigIds, sheet.id))
    {
      var rigs := state.rigs;
      for i := 0 to |rigIds|
        invariant rigs == Redirected(state.rigs, rigIds[..i], sheet.id)
      {
        assert rigIds[..i + 1][..i] == rigIds[..i];
        var rig := rigs[rigIds[i]];
        rig := BumpRig(rig.(desired := rig.desired.(sheetId := sheet.id)));
        rigs := rigs[rigIds[i] := rig];
      }
      assert rigIds[..|rigIds|] == rigIds;
      state := state.(sheets := state.sheets[sheet.id := sheet], rigs := rigs);
    }

    /** SaveQuickFlightSheet: a refusal after the miner was looked up can leave a new miner in memory. */
    method QuickSetup(q: QuickInput, checks: QuickChecks, minted: QuickFresh, order: QuickOrder, diskOk: bool)
      returns (outcome: Outcome)
      modifies this
      ensures View() == Settled(old(View()), StoreEffects.QuickSetup(old(state), q, checks, minted, order), diskOk,
                                {minted.miner, minted.wallet, minted.pool, minted.wallet2, minted.pool2, minted.sheet})
      ensures outcome == Reported(StoreEffects.QuickSetup(old(state), q, checks, minted, order), diskOk)
    {
      hide WithMiner, WithWallet, WithPool, Redirected;
      issued := issued + {minted.miner, minted.wallet, minted.pool, minted.wallet2, minted.pool2, minted.sheet};
      if !checks.inputOk { return Refused(Invalid); }
      for i := 0 to |q.rigIds|
        invariant View() == old(View()).(issued := issued)
        invariant issued == old(issued) + {minted.miner, minted.wallet, minted.pool, minted.wallet2, minted.pool2,
                  minted.sheet}
        invariant forall j :: 0 <= j < i ==> q.rigIds[j] in state.rigs
      {
        if q.rigIds[i] !in state.rigs { return Refused(Invalid); }
      }
      if q.minerId != "" && q.minerId !in state.miners { return Refused(Invalid); }
      if q.minerId == "" && !checks.entryOk { return Refused(Invalid); }
      WithMinerRigs(state, q, order.miners, minted.miner);
      var miner := UseMiner(q, order.miners, minted.miner);
      if !checks.minerOk || (checks.listed && QuickSecondary(q) && miner.catalogId != SRB) { return Refused(Invalid); }
      ghost var s1 := state;
      var wallet := UseWallet(q.coin, q.walletAddress, order.wallets, minted.wallet);
      var pool := UsePool(q.poolUrl, q.poolHost, q.poolPassword, order.pools, minted.pool);
      assert PickPrimary(s1, q, minted, order) == Picked(state, wallet, pool, "", "");
      var wallet2, pool2 := "", "";
      if QuickSecondary(q) {
        wallet2 := UseWallet(q.secondaryCoin, q.secondaryWalletAddress, order.wallets + [minted.wallet],
            minted.wallet2);
        pool2 := UsePool(q.secondaryPoolUrl, q.secondaryPoolHost, q.secondaryPoolPassword, order.pools + [minted.pool],
            minted.pool2);
      }
      assert PickSecondary(PickPrimary(s1, q, minted, order), q, minted, order) == Picked(state, wallet, pool, wallet2,
          pool2);
      StoreQuickSheet(QuickSheet(q, minted.sheet, wallet, pool, miner.id, wallet2, pool2), q.rigIds);
      outcome := Save(diskOk);
    }

    static lemma WithMinerRigs(s: State, q: QuickInput, order: seq<Id>, minted: Id)
      ensures WithMiner(s, q, order, minted).0.rigs == s.rigs
    {
      hide FindEntry;
    }

    // ----- commands -----

    method ProfileShared(profileId: Id, rigId: Id) returns (shared: bool)
      ensures shared == SharedProfile(state.rigs, profileId, rigId)
    {
      var left := state.rigs.Keys;
      while left != {}
        invariant left <= state.rigs.Keys
        invariant forall r :: r in state.rigs && r !in left ==>
                  r == rigId || state.rigs[r].desired.profileId != profileId
        decreases |left|
      {
        var r :| r in left;
        if r != rigId && state.rigs[r].desired.profileId == profileId { return true; }
        left := left - {r};
      }
      shared := false;
    }

    static method AlreadyOpen(queue: seq<Command>, action: Action) returns (open: bool)
      ensures open == HasOpen(queue, action)
    {
      for i := 0 to |queue|
        invariant forall j :: 0 <= j < i ==> !OpenWith(queue[j], action)
      {
        if queue[i].action == action && (queue[i].status.Pending? || queue[i].status.Running?) { return true; }
      }
      open := false;
    }

    static method TelemetryComplete(gpus: seq<Gpu>) returns (ok: bool)
      ensures ok == TelemetrySuffices(gpus)
    {
      for i := 0 to |gpus|
        invariant forall j :: 0 <= j < i ==> gpus[j].powerDraw > 0.0 && gpus[j].hashrate > 0.0
      {
        if gpus[i].powerDraw <= 0.0 || gpus[i].hashrate <= 0.0 { return false; }
      }
      ok := true;
    }

    /** The checks a smart tune must pass on the rig it is meant for. */
    method CanTune(rigId: Id) returns (ok: bool)
      requires rigId in state.rigs
      ensures ok == TunePossible(state, rigId)
    {
      hide SharedProfile, HasOpen, TelemetrySuffices;
      var rig := state.rigs[rigId];
      if |rig.telemetry.gpus| == 0 || !rig.telemetry.minerRunning { return false; }
      if !rig.telemetry.smartTuneSupported { return false; }
      var complete := TelemetryComplete(rig.telemetry.gpus);
      if !complete { return false; }
      if rig.desired.profileId !in state.profiles { return false; }
      var profile := state.profiles[rig.desired.profileId];
      if profile.vendor != "NVIDIA" { return false; }
      var shared := ProfileShared(profile.id, rigId);
      if shared { return false; }
      var open := AlreadyOpen(rig.commands, SmartTune);
      ok := !open;
    }

    method AddCommand(rigId: Id, request: Request, minted: Id, now: int, textOk: bool, guardOk: bool, diskOk: bool)
      returns (outcome: Outcome)
      modifies this
      ensures View() == Settled(old(View()),
              StoreEffects.AddCommand(old(state), rigId, request, minted, now, textOk, guardOk), diskOk, {minted})
      ensures outcome == Reported(StoreEffects.AddCommand(old(state), rigId, request, minted, now, textOk, guardOk),
              diskOk)
    {
      hide TunePossible, HasOpen;
      issued := issued + {minted};
      if !textOk || request.action.None? { return Refused(Invalid); }
      var action := request.action.value;
      if action.SmartTune? && !TuneAccepted(request.tune) { return Refused(Invalid); }
      if rigId !in state.rigs { return Refused(NotFound); }
      var rig := state.rigs[rigId];
      var profile := request.profile;
      match action {
        case Shell =>
          if !Online(rig.telemetry, now) { return Refused(Invalid); }
        case SmartTune =>
          var possible := CanTune(rigId);
          if !possible { return Refused(Invalid); }
          TuneHasProfile(state, rigId);
          profile := state.profiles[rig.desired.profileId].id;
        case DriverList =>
          if !Online(rig.telemetry, now) || !rig.telemetry.driverUpdateSupported || !guardOk {
            return Refused(Invalid);
          }
        case DriverUpdate =>
          if !Online(rig.telemetry, now) || !rig.telemetry.driverUpdateSupported || !guardOk {
            return Refused(Invalid);
          }
          var open := AlreadyOpen(rig.commands, DriverUpdate);
          if open { return Refused(Invalid); }
        case _ =>
      }
      state := state.(rigs := state.rigs[rigId := rig.(commands := rig.commands + [Queued(minted, action, profile)])]);
      outcome := Save(diskOk);
    }

    static lemma TuneHasProfile(s: State, rigId: Id)
      requires rigId in s.rigs && TunePossible(s, rigId)
      ensures s.rigs[rigId].desired.profileId in s.profiles
    {
    }

    /** AddCommands: one command for every chosen rig, or none at all. */
    method AddCommands(rigIds: seq<Id>, action: Option<Action>, profile: string, minted: seq<Id>, diskOk: bool)
      returns (outcome: Outcome)
      requires |minted| == |rigIds|
      modifies this
      ensures View() == Settled(old(View()), StoreEffects.AddCommands(old(state), rigIds, action, profile, minted),
              diskOk,
                                set i | 0 <= i < |minted| :: minted[i])
      ensures outcome == Reported(StoreEffects.AddCommands(old(state), rigIds, action, profile, minted), diskOk)
    {
      issued := issued + set i | 0 <= i < |minted| :: minted[i];
      if action.None? || action.value.Shell? || action.value.SmartTune? || |rigIds| == 0 { return Refused(Invalid); }
      ghost var was := View();
      for i := 0 to |rigIds|
        invariant View() == was
        invariant forall j :: 0 <= j < i ==> rigIds[j] in state.rigs
      {
        if rigIds[i] !in state.rigs { return Refused(Invalid); }
      }
      var rigs := state.rigs;
      for i := 0 to |rigIds|
        invariant View() == was
        invariant rigs == EnqueuedAll(state.rigs, rigIds[..i], action.value, profile, minted[..i])
      {
        assert rigIds[..i + 1][..i] == rigIds[..i] && minted[..i + 1][..i] == minted[..i];
        var rig := rigs[rigIds[i]];
        rigs := rigs[rigIds[i] := rig.(commands := rig.commands + [Queued(minted[i], action.value, profile)])];
      }
      assert rigIds[..|rigIds|] == rigIds && minted[..|rigIds|] == minted;
      state := state.(rigs := rigs);
      outcome := Save(diskOk);
    }

    /** The oldest command that is pending or whose lease ran out, leased again and saved before it is handed out. */
    method NextCommand(rigId: Id, now: int, diskOk: bool) returns (outcome: Outcome, handed: Option<Command>)
      modifies this
      ensures View() == Settled(old(View()), StoreEffects.NextCommand(old(state), rigId, now), diskOk, {})
      ensures outcome == Reported(StoreEffects.NextCommand(old(state), rigId, now), diskOk)
      ensures handed.Some? <==> outcome.Accepted?
      ensures handed.Some? ==>
                && rigId in old(state).rigs
                && var queue := old(state).rigs[rigId].commands;
                   var i := FirstLeasable(queue, now);
                   i < |queue| && handed.value == Leased(queue[i], now)
    {
      if rigId !in state.rigs { return Refused(NotFound), None; }
      var rig := state.rigs[rigId];
      for i := 0 to |rig.commands|
        invariant View() == old(View())
        invariant forall j :: 0 <= j < i ==> !Leasable(rig.commands[j], now)
      {
        var command := rig.commands[i];
        if command.status.Pending? || (command.status.Running? && command.leaseUntil < now) {
          var lease := 30;
          if command.action.SmartTune? {
            lease := 3600;
          } else if command.action.DriverUpdate? {
            lease := 1800;
          }
          command := command.(status := Running, attempt := command.attempt + 1, leaseUntil := now + lease);
          state := state.(rigs := state.rigs[rigId := rig.(commands := rig.commands[i := command])]);
          outcome := Save(diskOk);
          handed := if outcome.Accepted? then Some(command) else None;
          return;
        }
      }
      return Refused(NotFound), None;
    }

    /** Power limits by selector, the last entry winning. */
    static method LimitsBySelector(tuned: seq<Setting>) returns (bySelector: map<string, int>)
      ensures bySelector == TunedLimits(tuned)
    {
      bySelector := map[];
      for i := 0 to |tuned|
        invariant bySelector == TunedLimits(tuned[..i])
      {
        assert tuned[..i + 1][..i] == tuned[..i];
        bySelector := bySelector[tuned[i].selector := tuned[i].power];
      }
      assert tuned[..|tuned|] == tuned;
    }

    /** The pass over the stored settings; what is left was claimed by none of them. */
    static method RetuneStored(stored: seq<Setting>, limits: map<string, int>)
      returns (settings: seq<Setting>, bySelector: map<string, int>)
      ensures (settings, bySelector) == Retuned(stored, limits)
    {
      hide IsWildcard;
      settings, bySelector := [], limits;
      for i := 0 to |stored|
        invariant (settings, bySelector) == Retuned(stored[..i], limits)
      {
        assert stored[..i + 1][..i] == stored[..i];
        var setting := stored[i];
        if IsWildcard(setting.selector) {
          setting := setting.(power := 0);
        } else if setting.selector in bySelector {
          setting := setting.(power := bySelector[setting.selector]);
          bySelector := bySelector - {setting.selector};
        }
        settings := settings + [setting];
      }
      assert stored[..|stored|] == stored;
    }

    static method AppendLeft(body: seq<Setting>, left: map<string, int>, order: seq<string>)
      returns (settings: seq<Setting>)
      ensures settings == body + Appended(left, order)
    {
      settings := body;
      for i := 0 to |order|
        invariant settings == body + Appended(left, order[..i])
      {
        assert order[..i + 1][..i] == order[..i];
        if order[i] in left {
          settings := settings + [Setting(order[i], 0, 0, 0, 0, left[order[i]], 0)];
        }
      }
      assert order[..|order|] == order;
    }

    /** capOverclockProfilePower */
    static method CapPower(stored: seq<Setting>, maximum: int) returns (settings: seq<Setting>)
      ensures settings == Capped(stored, maximum)
    {
      settings := stored;
      if maximum <= 0 { return; }
      for i := 0 to |stored|
        invariant |settings| == |stored|
        invariant forall j :: i <= j < |stored| ==> settings[j] == stored[j]
        invariant forall j :: 0 <= j < i ==> settings[j] == Capped(stored, maximum)[j]
      {
        if settings[i].power == 0 || settings[i].power > maximum {
          settings := settings[i := settings[i].(power := maximum)];
        }
      }
    }

    /** applySmartTuneSettings on an accepted result, then the cap. */
    static method Retune(profile: Profile, tuned: seq<Setting>, order: seq<string>, maximum: int) returns (r: Profile)
      ensures r == TunedProfile(profile, tuned, order, maximum)
    {
      hide Retuned, TunedLimits, Appended, Capped;
      var limits := LimitsBySelector(tuned);
      var body, left := RetuneStored(profile.settings, limits);
      var all := AppendLeft(body, left, order);
      var settings := CapPower(all, maximum);
      r := profile.(settings := settings);
    }

    static method TunedUsable(tuned: seq<Setting>) returns (ok: bool)
      ensures ok == TunedAccepted(tuned)
    {
      if |tuned| == 0 { return false; }
      for i := 0 to |tuned|
        invariant forall j :: 0 <= j < i ==> tuned[j].selector != "" && tuned[j].power > 0
      {
        if tuned[i].selector == "" || tuned[i].power <= 0 { return false; }
      }
      ok := true;
    }

    method TuneStillLands(rigId: Id, command: Command, result: Result) returns (ok: bool)
      requires rigId in state.rigs
      ensures ok == TuneLands(state, rigId, command, result)
    {
      hide SharedProfile, TunedAccepted;
      if command.profile !in state.profiles || state.rigs[rigId].desired.profileId != command.profile { return false; }
      var shared := ProfileShared(command.profile, rigId);
      if shared || state.profiles[command.profile].vendor != "NVIDIA" { return false; }
      ok := TunedUsable(result.tuned);
    }

    /** The command's end is entered into the queue, and a successful tune into the rig's profile. */
    method Complete(rigId: Id, i: nat, result: Result, order: seq<string>)
      requires rigId in state.rigs && i < |state.rigs[rigId].commands|
      modifies `state
      ensures state == Completed(old(state), rigId, i, result, order)
    {
      hide TuneLands, TunedProfile, BumpRig;
      var rig := state.rigs[rigId];
      var command := rig.commands[i];
      var error := result.error;
      if error == "" && command.action.SmartTune? {
        var lands := TuneStillLands(rigId, command, result);
        if lands {
          TuneLandsProfile(state, rigId, command, result);
          var profile := Retune(state.profiles[command.profile], result.tuned, order, state.maxPowerW);
          state := state.(profiles := state.profiles[profile.id := profile]);
          BumpedQueue(rig, i, command, result.output);
          rig := BumpRig(rig);
        } else {
          error := TUNE_REFUSED;
        }
      }
      command := command.(status := CommandQueue.Complete, output := result.output);
      if error != "" {
        command := command.(status := Failed, error := error);
      }
      rig := rig.(commands := rig.commands[i := command]);
      state := state.(rigs := state.rigs[rigId := rig]);
    }

    static lemma BumpedQueue(rig: Rig, i: nat, c: Command, output: string)
      requires i < |rig.commands| && c == rig.commands[i]
      ensures BumpRig(rig).commands == rig.commands
      ensures BumpRig(Ended(rig, i, "", output)) == BumpRig(rig).(commands :=
              rig.commands[i := Finished(c, "", output)])
    {
    }

    static lemma TuneLandsProfile(s: State, rigId: Id, c: Command, result: Result)
      requires rigId in s.rigs && TuneLands(s, rigId, c, result)
      ensures c.profile in s.profiles
    {
    }

    /** FinishCommandResult: only the first result of a running command counts. */
    method FinishCommand(rigId: Id, commandId: Id, result: Result, order: seq<string>, diskOk: bool)
      returns (outcome: Outcome)
      modifies this
      ensures View() == Settled(old(View()), StoreEffects.FinishCommand(old(state), rigId, commandId, result, order),
              diskOk, {})
      ensures outcome == Reported(StoreEffects.FinishCommand(old(state), rigId, commandId, result, order), diskOk)
    {
      hide Completed;
      if rigId !in state.rigs { return Refused(NotFound); }
      var commands := state.rigs[rigId].commands;
      for i := 0 to |commands|
        invariant View() == old(View())
        invariant forall j :: 0 <= j < i ==> commands[j].id != commandId
      {
        if commands[i].id == commandId {
          assert i == Find(commands, commandId);
          if commands[i].status.Complete? || commands[i].status.Failed? { return Accepted; }
          if !commands[i].status.Running? { return Refused(Invalid); }
          Complete(rigId, i, result, order);
          outcome := Save(diskOk);
          return;
        }
      }
      return Refused(NotFound);
    }
  }
}
