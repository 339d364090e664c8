/**
 Two laws of the store's longer operations: a schedule runs once a minute, and when the limits
 a smart tune found are the ones in force once its profile is applied.
 */
module StoreLaws {
  import opened Wrappers
  import opened Tuning
  import opened Templates
  import opened CommandQueue
  import opened StoreState
  import opened StoreEffects
  import opened StoreRuns
  import opened StoreIntegrity

  // ----- schedules -----

  /** If schedule k is there, this is the minute it last ran in. */
  predicate Marked(s: State, k: Id, minute: string) {
    k in s.schedules ==> s.schedules[k].lastRunMinute == minute
  }

  predicate MarkedAfter(e: Effect, k: Id, minute: string) {
    match e
    case Reject(m, _) => Marked(m, k, minute)
    case Done(m) => Marked(m, k, minute)
    case Save(n) => Marked(n, k, minute)
  }

  lemma {:induction false} RunAllMarks(s: State, order: seq<Id>, now: Moment, tokens: Tokens, k: Id)
    ensures var t := RunAll(s, order, now, tokens);
            && t.schedules.Keys == s.schedules.Keys
            && (k in s.schedules ==> t.schedules[k].lastRunMinute in {s.schedules[k].lastRunMinute, now.minute})
            && (k in s.schedules && k in order && Due(s.schedules[k], now) ==>
                t.schedules[k].lastRunMinute == now.minute)
            && (k in s.schedules && t.schedules[k].lastRunMinute == s.schedules[k].lastRunMinute ==>
                t.schedules[k] == s.schedules[k])
  {
    hide Visited;
    if order != [] {
      var n := |order| - 1;
      RunAllMarks(s, order[..n], now, tokens, k);
      assert order == order[..n] + [order[n]];
    }
  }

  /** No operation makes a schedule forget the minute it last ran in, but for running it in another. */
  lemma EffectKeepsMark(cat: Catalog, s: State, op: Op, k: Id, minute: string)
    requires Marked(s, k, minute) && k !in Drawn(op)
    requires op.OpRunSchedules? ==> op.moment.minute == minute
    ensures MarkedAfter(EffectOf(cat, s, op), k, minute)
  {
    if op.OpRunSchedules? {
      hide RunAll, AnyDue;
      RunAllMarks(s, op.order, op.moment, op.tokens, k);
    } else if op.OpQuick? {
      QuickKeepsSchedules(s, op.input, op.checks, op.quick, op.orders);
    } else {
      OtherKeepsMark(cat, s, op, k, minute);
    }
  }

  lemma WalletKeepsSchedules(s: State, coin: string, address: string, order: seq<Id>, minted: Id)
    ensures WithWallet(s, coin, address, order, minted).0.schedules == s.schedules
  {
    hide FindWallet;
  }

  lemma PoolKeepsSchedules(s: State, url: string, host: string, password: string, order: seq<Id>, minted: Id)
    ensures WithPool(s, url, host, password, order, minted).0.schedules == s.schedules
  {
    hide FindPool;
  }

  lemma PickKeepsSchedules(s: State, q: QuickInput, ids: QuickFresh, orders: QuickOrder)
    ensures PickSecondary(PickPrimary(s, q, ids, orders), q, ids, orders).state.schedules == s.schedules
  {
    hide WithWallet, WithPool, QuickSecondary;
    WalletKeepsSchedules(s, q.coin, q.walletAddress, orders.wallets, ids.wallet);
    PoolKeepsSchedules(WithWallet(s, q.coin, q.walletAddress, orders.wallets, ids.wallet).0, q.poolUrl, q.poolHost,
        q.poolPassword, orders.pools, ids.pool);
    var p := PickPrimary(s, q, ids, orders).state;
    WalletKeepsSchedules(p, q.secondaryCoin, q.secondaryWalletAddress, orders.wallets + [ids.wallet], ids.wallet2);
    PoolKeepsSchedules(WithWallet(p, q.secondaryCoin, q.secondaryWalletAddress, orders.wallets + [ids.wallet],
        ids.wallet2).0,
                       q.secondaryPoolUrl, q.secondaryPoolHost, q.secondaryPoolPassword, orders.pools + [ids.pool],
                           ids.pool2);
  }

  lemma QuickKeepsSchedules(s: State, q: QuickInput, checks: QuickChecks, ids: QuickFresh, orders: QuickOrder)
    ensures match QuickSetup(s, q, checks, ids, orders)
            case Reject(m, _) => m.schedules == s.schedules
            case Done(m) => m.schedules == s.schedules
            case Save(n) => n.schedules == s.schedules
  {
    hide PickPrimary, PickSecondary, FindEntry, Redirected, QuickSheet, QuickSecondary;
    PickKeepsSchedules(WithMiner(s, q, orders.miners, ids.miner).0, q, ids, orders);
  }

  lemma ResolvingKeepsSchedules(cat: Catalog, s: State, sheet: Sheet)
    ensures AfterResolving(cat, s, sheet).schedules == s.schedules
  {
    hide RewritesStored, DropWorkers, CloseOver;
  }

  lemma ServingKeepsSchedules(cat: Catalog, s: State, rigId: Id)
    ensures AfterServing(cat, s, rigId).schedules == s.schedules
  {
    hide AfterResolving, Starts;
    forall t: State, sheet ensures AfterResolving(cat, t, sheet).schedules == t.schedules {
      ResolvingKeepsSchedules(cat, t, sheet);
    }
  }

  lemma DeleteKeepsMark(s: State, kind: Kind, id: Id, filesOk: bool, k: Id, minute: string)
    requires Marked(s, k, minute)
    ensures MarkedAfter(Delete(s, kind, id, filesOk), k, minute)
  {
    hide SheetRefers, RigRefers, ScheduleRefers;
  }

  lemma CompletedKeepsSchedules(s: State, rigId: Id, i: nat, result: Result, order: seq<string>)
    requires rigId in s.rigs && i < |s.rigs[rigId].commands|
    ensures Completed(s, rigId, i, result, order).schedules == s.schedules
  {
    hide TuneLands, TunedProfile, Ended, BumpRig;
    if result.error == "" && s.rigs[rigId].commands[i].action.SmartTune? {
      if TuneLands(s, rigId, s.rigs[rigId].commands[i], result) {
      }
    }
  }

  lemma FinishKeepsMark(s: State, rigId: Id, commandId: Id, result: Result, order: seq<string>, k: Id, minute: string)
    requires Marked(s, k, minute)
    ensures MarkedAfter(FinishCommand(s, rigId, commandId, result, order), k, minute)
  {
    hide Completed, Terminal;
    if rigId in s.rigs {
      var i := Find(s.rigs[rigId].commands, commandId);
      if i < |s.rigs[rigId].commands| { CompletedKeepsSchedules(s, rigId, i, result, order); }
    }
  }

  lemma SavedKeepsMark(cat: Catalog, s: State, op: Op, k: Id, minute: string)
    requires Marked(s, k, minute) && k !in Drawn(op) && (op.OpSaveFarm? || op.OpSaveWallet?)
    ensures MarkedAfter(EffectOf(cat, s, op), k, minute)
  {
    hide BumpedRigs;
  }

  lemma PoolKeepsMark(cat: Catalog, s: State, op: Op, k: Id, minute: string)
    requires Marked(s, k, minute) && k !in Drawn(op) && op.OpSavePool?
    ensures MarkedAfter(EffectOf(cat, s, op), k, minute)
  {
    hide BumpedRigs, SaveFarm, SaveWallet, SaveMiner, SaveSheet, SaveProfile, AssignWorker, SetPowerPolicy, Delete,
         QuickSetup, SaveSchedule, RunSchedules, Enroll, DeleteRig, Heartbeat, UploadMiner, AddCommand, AddCommands,
         NextCommand, FinishCommand, AfterServing;
  }

  lemma ProfileKeepsMark(cat: Catalog, s: State, op: Op, k: Id, minute: string)
    requires Marked(s, k, minute) && k !in Drawn(op) && op.OpSaveProfile?
    ensures MarkedAfter(EffectOf(cat, s, op), k, minute)
  {
    hide BumpedRigs, SettingsAccepted;
  }

  lemma MinerKeepsMark(cat: Catalog, s: State, op: Op, k: Id, minute: string)
    requires Marked(s, k, minute) && k !in Drawn(op) && (op.OpSaveMiner? || op.OpUpload?)
    ensures MarkedAfter(EffectOf(cat, s, op), k, minute)
  {
    hide BumpedRigs, CatalogTwin, Inherit;
  }

  lemma SheetKeepsMark(cat: Catalog, s: State, op: Op, k: Id, minute: string)
    requires Marked(s, k, minute) && k !in Drawn(op) && op.OpSaveSheet?
    ensures MarkedAfter(EffectOf(cat, s, op), k, minute)
  {
    hide BumpedRigs, FallbackAccepted, SecondaryAccepted;
  }

  lemma ServedKeepsMark(cat: Catalog, s: State, op: Op, k: Id, minute: string)
    requires Marked(s, k, minute) && k !in Drawn(op) && op.OpServe?
    ensures MarkedAfter(EffectOf(cat, s, op), k, minute)
  {
    hide AfterServing;
    ServingKeepsSchedules(cat, s, op.rigId);
  }

  lemma QueuedKeepsMark(cat: Catalog, s: State, op: Op, k: Id, minute: string)
    requires Marked(s, k, minute) && k !in Drawn(op) && (op.OpAddCommand? || op.OpAddCommands?)
    ensures MarkedAfter(EffectOf(cat, s, op), k, minute)
  {
    hide CommandAccepted, EnqueuedAll;
  }

  lemma LeasedKeepsMark(cat: Catalog, s: State, op: Op, k: Id, minute: string)
    requires Marked(s, k, minute) && k !in Drawn(op) && (op.OpNext? || op.OpHeartbeat?)
    ensures MarkedAfter(EffectOf(cat, s, op), k, minute)
  {
    hide FirstLeasable, Leased, SaveFarm, SaveWallet, SavePool, SaveMiner, SaveSheet, SaveProfile, AssignWorker,
         SetPowerPolicy, Delete, QuickSetup, SaveSchedule, RunSchedules, Enroll, DeleteRig, UploadMiner, AddCommand,
         AddCommands, FinishCommand, AfterServing;
  }

  lemma FinishedKeepsMark(cat: Catalog, s: State, op: Op, k: Id, minute: string)
    requires Marked(s, k, minute) && k !in Drawn(op) && op.OpFinish?
    ensures MarkedAfter(EffectOf(cat, s, op), k, minute)
  {
    hide FinishCommand;
    FinishKeepsMark(s, op.rigId, op.commandId, op.result, op.order, k, minute);
  }

  lemma EnrolledKeepsMark(cat: Catalog, s: State, op: Op, k: Id, minute: string)
    requires Marked(s, k, minute) && k !in Drawn(op) && op.OpEnroll?
    ensures MarkedAfter(EffectOf(cat, s, op), k, minute)
  {
    hide NameTaken;
  }

  lemma AssignedKeepsMark(cat: Catalog, s: State, op: Op, k: Id, minute: string)
    requires Marked(s, k, minute) && k !in Drawn(op) && op.OpAssign?
    ensures MarkedAfter(EffectOf(cat, s, op), k, minute)
  {
    hide Accepts, Assigned;
  }

  lemma PolicyKeepsMark(cat: Catalog, s: State, op: Op, k: Id, minute: string)
    requires Marked(s, k, minute) && k !in Drawn(op) && op.OpPower?
    ensures MarkedAfter(EffectOf(cat, s, op), k, minute)
  {
    hide PowerBumped;
  }

  lemma DeletedKeepsMark(cat: Catalog, s: State, op: Op, k: Id, minute: string)
    requires Marked(s, k, minute) && k !in Drawn(op) && op.OpDelete?
    ensures MarkedAfter(EffectOf(cat, s, op), k, minute)
  {
    hide Delete;
    DeleteKeepsMark(s, op.kind, op.id, op.filesOk, k, minute);
  }

  lemma ScheduledKeepsMark(cat: Catalog, s: State, op: Op, k: Id, minute: string)
    requires Marked(s, k, minute) && k !in Drawn(op) && (op.OpSaveSchedule? || op.OpDeleteRig?)
    ensures MarkedAfter(EffectOf(cat, s, op), k, minute)
  {
    hide Dropped, ScheduleActionAccepted;
  }

  lemma OtherKeepsMark(cat: Catalog, s: State, op: Op, k: Id, minute: string)
    requires Marked(s, k, minute) && k !in Drawn(op) && !op.OpRunSchedules? && !op.OpQuick?
    ensures MarkedAfter(EffectOf(cat, s, op), k, minute)
  {
    hide Marked, MarkedAfter, EffectOf, Drawn;
    if op.OpSaveFarm? || op.OpSaveWallet? {
      SavedKeepsMark(cat, s, op, k, minute);
    } else if op.OpSavePool? {
      PoolKeepsMark(cat, s, op, k, minute);
    } else if op.OpSaveProfile? {
      ProfileKeepsMark(cat, s, op, k, minute);
    } else if op.OpSaveMiner? || op.OpUpload? {
      MinerKeepsMark(cat, s, op, k, minute);
    } else if op.OpSaveSheet? {
      SheetKeepsMark(cat, s, op, k, minute);
    } else if op.OpServe? {
      ServedKeepsMark(cat, s, op, k, minute);
    } else if op.OpAddCommand? || op.OpAddCommands? {
      QueuedKeepsMark(cat, s, op, k, minute);
    } else if op.OpNext? || op.OpHeartbeat? {
      LeasedKeepsMark(cat, s, op, k, minute);
    } else if op.OpFinish? {
      FinishedKeepsMark(cat, s, op, k, minute);
    } else if op.OpEnroll? {
      EnrolledKeepsMark(cat, s, op, k, minute);
    } else if op.OpAssign? {
      AssignedKeepsMark(cat, s, op, k, minute);
    } else if op.OpPower? {
      PolicyKeepsMark(cat, s, op, k, minute);
    } else if op.OpDelete? {
      DeletedKeepsMark(cat, s, op, k, minute);
    } else if op.OpSaveSchedule? || op.OpDeleteRig? {
      ScheduledKeepsMark(cat, s, op, k, minute);
    } else {
      RestartKeepsMark(cat, s, op, k, minute);
    }
  }

  lemma RestartKeepsMark(cat: Catalog, s: State, op: Op, k: Id, minute: string)
    requires Marked(s, k, minute) && op.OpRestart?
    ensures MarkedAfter(EffectOf(cat, s, op), k, minute)
  {
  }

  lemma StepKeepsMark(cat: Catalog, db: Db, op: Op, saved: bool, k: Id, minute: string)
    requires Marked(db.memory, k, minute) && Marked(db.disk, k, minute) && k in db.issued && Drawn(op) !! db.issued
    requires op.OpRunSchedules? ==> op.moment.minute == minute
    ensures var next := Step(cat, db, op, saved);
            Marked(next.memory, k, minute) && Marked(next.disk, k, minute) && k in next.issued
  {
    hide EffectOf, Drawn, Marked;
    EffectKeepsMark(cat, db.memory, op, k, minute);
  }

  /** Every run of the schedules among these events falls in this minute. */
  predicate AllInMinute(events: seq<Event>, minute: string) {
    forall i :: 0 <= i < |events| && events[i].op.OpRunSchedules? ==> events[i].op.moment.minute == minute
  }

  lemma {:induction false} RunKeepsMark(cat: Catalog, db: Db, events: seq<Event>, k: Id, minute: string)
    requires Marked(db.memory, k, minute) && Marked(db.disk, k, minute) && k in db.issued
    requires Possible(cat, db, events) && AllInMinute(events, minute)
    ensures Marked(Run(cat, db, events).memory, k, minute)
    decreases |events|
  {
    hide Marked, Step, Distinct, Injective, EnoughTokens, Drawn;
    if events != [] {
      StepKeepsMark(cat, db, events[0].op, events[0].saved, k, minute);
      assert AllInMinute(events[1..], minute) by {
        assert forall i :: 0 <= i < |events[1..]| ==> events[1..][i] == events[i + 1];
      }
      RunKeepsMark(cat, Step(cat, db, events[0].op, events[0].saved), events[1..], k, minute);
    }
  }

  /**
   In a reachable store a schedule that has taken effect in some minute, with the document
   saved, does not take effect again in that minute: any operations, failed saves and restarts
   may lie in between.
   */
  lemma RunsOncePerMinute(cat: Catalog, before: seq<Event>, first: Op, between: seq<Event>, k: Id, again: Moment,
      order: seq<Id>, tokens: Tokens)
    requires Possible(cat, NewStore(), before) && first.OpRunSchedules?
    requires var db := Run(cat, NewStore(), before);
             && k in db.memory.schedules && Due(db.memory.schedules[k], first.moment) && k in first.order
             && Possible(cat, db, [Event(first, true)] + between)
    requires AllInMinute(between, first.moment.minute) && again.minute == first.moment.minute
    ensures var later := Run(cat, Run(cat, NewStore(), before), [Event(first, true)] + between).memory;
            && (k in later.schedules ==> !Due(later.schedules[k], again))
            && (k in later.schedules ==>
                k in RunAll(later, order, again, tokens).schedules
                && RunAll(later, order, again, tokens).schedules[k] == later.schedules[k])
  {
    hide RunAll, Sound, Distinct, Injective, EnoughTokens, Run, Possible;
    NewStoreSound();
    RunSound(cat, NewStore(), before);
    var db := Run(cat, NewStore(), before);
    KeysKnown(db.memory, db.issued);
    var events := [Event(first, true)] + between;
    assert events[1..] == between;
    FirstStep(cat, db, events);
    var next := Step(cat, db, first, true);
    RunAllMarks(db.memory, first.order, first.moment, first.tokens, k);
    assert next.memory == next.disk == RunAll(db.memory, first.order, first.moment, first.tokens);
    RunKeepsMark(cat, next, between, k, first.moment.minute);
    var later := Run(cat, next, between).memory;
    if k in later.schedules { RunAllMarks(later, order, again, tokens, k); }
  }

  lemma FirstStep(cat: Catalog, db: Db, events: seq<Event>)
    requires events != [] && Possible(cat, db, events)
    ensures var next := Step(cat, db, events[0].op, events[0].saved);
            Run(cat, db, events) == Run(cat, next, events[1..]) && Possible(cat, next, events[1..])
  {
    hide Step, Enabled;
  }

  // ----- stored smart tunes -----

  predicate FirstWithSelector(settings: seq<Setting>, i: nat)
    requires i < |settings|
  {
    forall j :: 0 <= j < i ==> settings[j].selector != settings[i].selector
  }

  /** A stored setting after a tune with these limits. */
  function RetunedAt(settings: seq<Setting>, limits: map<string, int>, i: nat): Setting
    requires i < |settings|
  {
    var s := settings[i];
    if IsWildcard(s.selector) then s.(power := 0)
    else if FirstWithSelector(settings, i) && s.selector in limits then s.(power := limits[s.selector])
    else s
  }

  lemma {:induction false} RetunedIs(settings: seq<Setting>, limits: map<string, int>)
    ensures var (body, left) := Retuned(settings, limits);
            && |body| == |settings|
            && (forall i :: 0 <= i < |settings| ==> body[i] == RetunedAt(settings, limits, i))
            && (forall x :: x in left <==>
                  x in limits && forall j :: 0 <= j < |settings| && settings[j].selector == x ==> IsWildcard(x))
            && (forall x :: x in left ==> left[x] == limits[x])
  {
    hide IsWildcard;
    if settings != [] {
      var n := |settings| - 1;
      RetunedIs(settings[..n], limits);
      var (front, left) := Retuned(settings[..n], limits);
      assert forall i :: 0 <= i < n ==> settings[..n][i] == settings[i];
      forall i | 0 <= i < n ensures RetunedAt(settings[..n], limits, i) == RetunedAt(settings, limits, i) {
        assert FirstWithSelector(settings[..n], i) == FirstWithSelector(settings, i);
      }
      if !IsWildcard(settings[n].selector) {
        assert settings[n].selector in left <==> FirstWithSelector(settings, n) && settings[n].selector in limits;
      }
    }
  }

  /** The controller's cap on one limit. */
  function CapOne(limit: int, maximum: int): int {
    if maximum > 0 && (limit == 0 || limit > maximum) then maximum else limit
  }

  // What the tune leaves of the stored and the tuned settings, told from those alone.

  /** A tuned selector that no stored setting takes up is appended. */
  predicate Unplaced(settings: seq<Setting>, limits: map<string, int>, x: string) {
    x in limits && (IsWildcard(x) || forall j :: 0 <= j < |settings| ==> settings[j].selector != x)
  }

  /** The i-th stored setting addresses GPU g and ends with a limit. */
  predicate StoredCounts(settings: seq<Setting>, limits: map<string, int>, maximum: int, g: int, i: nat) {
    i < |settings| && Selects(settings[i].selector, g) && CapOne(RetunedAt(settings, limits, i).power, maximum) > 0
  }

  /** So does the setting appended for the j-th selector of the order. */
  predicate AppendedCounts(settings: seq<Setting>, limits: map<string, int>, order: seq<string>, maximum: int, g: int,
      j: nat)
  {
    j < |order| && Unplaced(settings, limits, order[j]) && Selects(order[j], g) && CapOne(limits[order[j]], maximum) > 0
  }

  ghost predicate SomeAppended(settings: seq<Setting>, limits: map<string, int>, order: seq<string>, maximum: int,
      g: int)
  {
    exists j: nat :: AppendedCounts(settings, limits, order, maximum, g, j)
  }

  /**
   The last setting that addresses GPU g with a limit gives it this one; appended settings come
   after the stored ones.
   */
  ghost predicate LastLimit(settings: seq<Setting>, limits: map<string, int>, order: seq<string>, maximum: int, g: int,
      v: int)
  {
    if SomeAppended(settings, limits, order, maximum, g) then
      exists j: nat :: AppendedCounts(settings, limits, order, maximum, g, j) && CapOne(limits[order[j]], maximum) == v
                       && forall k: nat :: k > j ==> !AppendedCounts(settings, limits, order, maximum, g, k)
    else
      exists i: nat :: StoredCounts(settings, limits, maximum, g, i)
          && CapOne(RetunedAt(settings, limits, i).power, maximum) == v
                       && forall k: nat :: k > i ==> !StoredCounts(settings, limits, maximum, g, k)
  }

  lemma CappedIs(settings: seq<Setting>, maximum: int)
    ensures forall i :: 0 <= i < |settings| ==>
            Capped(settings, maximum)[i] == settings[i].(power := CapOne(settings[i].power, maximum))
  {
  }

  /** The limit after the stored settings: that of the last one that counts, the k-th, if any. */
  lemma StoredAfter(settings: seq<Setting>, body: seq<Setting>, limits: map<string, int>, maximum: int, g: int,
      before: int) returns (k: int)
    requires |body| == |settings| && forall i :: 0 <= i < |settings| ==> body[i] == RetunedAt(settings, limits, i)
    ensures k >= 0 ==>
            StoredCounts(settings, limits, maximum, g, k)
            && After(Capped(body, maximum), g, Power, before) == CapOne(RetunedAt(settings, limits, k).power, maximum)
    ensures forall i: nat :: i > k ==> !StoredCounts(settings, limits, maximum, g, i)
    ensures k < 0 ==> After(Capped(body, maximum), g, Power, before) == before
  {
    hide ParseInt, IsWildcard, CapOne;
    CappedIs(body, maximum);
    var out := Capped(body, maximum);
    forall i | 0 <= i < |settings| ensures StoredCounts(settings, limits, maximum, g, i) <==> Covers(out[i], g, Power) {
      assert out[i].selector == settings[i].selector;
    }
    if Covered(out, g, Power) {
      k := AfterIsSomeSetting(out, g, Power, before);
    } else {
      AfterCovered(out, g, Power, before, before);
      k := -1;
    }
  }

  lemma {:induction false} AppendedAfter(settings: seq<Setting>, left: map<string, int>, limits: map<string, int>,
      order: seq<string>, maximum: int, g: int, before: int)
    returns (k: int)
    requires forall x :: x in left <==> Unplaced(settings, limits, x)
    requires forall x :: x in left ==> x in limits && left[x] == limits[x]
    ensures k >= 0 ==>
            AppendedCounts(settings, limits, order, maximum, g, k)
            && After(Capped(Appended(left, order), maximum), g, Power, before) == CapOne(limits[order[k]], maximum)
    ensures forall j: nat :: j > k ==> !AppendedCounts(settings, limits, order, maximum, g, j)
    ensures k < 0 ==> After(Capped(Appended(left, order), maximum), g, Power, before) == before
  {
    hide ParseInt, IsWildcard, CapOne, Unplaced;
    if order == [] {
      k := -1;
    } else {
      var n := |order| - 1;
      k := AppendedAfter(settings, left, limits, order[..n], maximum, g, before);
      assert forall j :: 0 <= j < n ==> order[..n][j] == order[j];
      forall j: nat | j < n ensures AppendedCounts(settings, limits, order, maximum, g, j) == AppendedCounts(settings,
          limits, order[..n], maximum, g, j) {}
      var front, all := Appended(left, order[..n]), Appended(left, order);
      if order[n] in left {
        CappedIs(all, maximum);
        CappedIs(front, maximum);
        var out := Capped(all, maximum);
        assert out[..|out| - 1] == Capped(front, maximum);
        assert out[|out| - 1] == Setting(order[n], 0, 0, 0, 0, CapOne(limits[order[n]], maximum), 0);
        if AppendedCounts(settings, limits, order, maximum, g, n) { k := n; }
      } else {
        assert all == front;
      }
    }
  }

  lemma TunedParts(p: Profile, tuned: seq<Setting>, order: seq<string>, maximum: int, g: int, before: int)
    ensures var (body, left) := Retuned(p.settings, TunedLimits(tuned));
            After(TunedProfile(p, tuned, order, maximum).settings, g, Power, before)
            == After(Capped(Appended(left, order), maximum), g, Power, After(Capped(body, maximum), g, Power, before))
  {
    hide Retuned, TunedLimits, Appended, After;
    var (body, left) := Retuned(p.settings, TunedLimits(tuned));
    var app := Appended(left, order);
    assert Capped(body + app, maximum) == Capped(body, maximum) + Capped(app, maximum);
    AfterBoth(Capped(body, maximum), Capped(app, maximum), g, Power, before);
  }

  /**
   For every stored profile, tuned list and controller limit: the tuned limit of a selector,
   within the controller's, is in force on a GPU it addresses if and only if the last setting
   that still addresses the GPU with a limit gives that one.
   */
  lemma TunedLimitInForceIff(p: Profile, tuned: seq<Setting>, order: seq<string>, maximum: int, g: int, x: string,
      before: int)
    requires x in TunedLimits(tuned) && Selects(x, g) && TunedLimits(tuned)[x] > 0
    requires Unplaced(p.settings, TunedLimits(tuned), x) ==> x in order
    ensures var limit := CapOne(TunedLimits(tuned)[x], maximum);
            After(TunedProfile(p, tuned, order, maximum).settings, g, Power, before) == limit
            <==> LastLimit(p.settings, TunedLimits(tuned), order, maximum, g, limit)
  {
    hide ParseInt, TunedLimits, TunedProfile, After, Retuned, Appended, Capped, IsWildcard;
    var limits := TunedLimits(tuned);
    RetunedIs(p.settings, limits);
    var (body, left) := Retuned(p.settings, limits);
    TunedParts(p, tuned, order, maximum, g, before);
    var i := StoredAfter(p.settings, body, limits, maximum, g, before);
    var j := AppendedAfter(p.settings, left, limits, order, maximum, g, After(Capped(body, maximum), g, Power, before));
    TunedCounts(p.settings, limits, order, maximum, g, x);
    if j >= 0 { assert SomeAppended(p.settings, limits, order, maximum, g); }
  }

  /** A tuned selector counts for the GPUs it addresses, in a stored setting or an appended one. */
  lemma TunedCounts(settings: seq<Setting>, limits: map<string, int>, order: seq<string>, maximum: int, g: int,
      x: string)
    requires x in limits && Selects(x, g) && limits[x] > 0 && (Unplaced(settings, limits, x) ==> x in order)
    ensures SomeAppended(settings, limits, order, maximum, g)
            || exists i: nat :: StoredCounts(settings, limits, maximum, g, i)
  {
    hide ParseInt, IsWildcard;
    if Unplaced(settings, limits, x) {
      var j :| 0 <= j < |order| && order[j] == x;
      assert AppendedCounts(settings, limits, order, maximum, g, j);
    } else {
      var i := FirstStored(settings, x);
      assert StoredCounts(settings, limits, maximum, g, i);
    }
  }

  lemma {:induction false} FirstStored(settings: seq<Setting>, x: string) returns (k: nat)
    requires exists j :: 0 <= j < |settings| && settings[j].selector == x
    ensures k < |settings| && settings[k].selector == x && FirstWithSelector(settings, k)
  {
    var n := |settings| - 1;
    if exists j :: 0 <= j < n && settings[..n][j].selector == x {
      k := FirstStored(settings[..n], x);
      assert FirstWithSelector(settings[..n], k);
    } else {
      k := n;
      assert forall j :: 0 <= j < n ==> settings[..n][j] == settings[j];
    }
  }

  /** A GPU that had no setting of its own gets its tuned limit. */
  lemma NewSettingInForce(p: Profile, tuned: seq<Setting>, order: seq<string>, maximum: int, g: int, x: string,
      before: int)
    requires x in TunedLimits(tuned) && Selects(x, g) && TunedLimits(tuned)[x] > 0 && x in order
    requires forall j :: 0 <= j < |p.settings| ==> p.settings[j].selector != x
    requires forall y :: y in TunedLimits(tuned) && Selects(y, g) ==> y == x
    ensures After(TunedProfile(p, tuned, order, maximum).settings, g, Power, before) == CapOne(TunedLimits(tuned)[x],
            maximum)
  {
    hide ParseInt, TunedLimits, TunedProfile, After, IsWildcard;
    var limits := TunedLimits(tuned);
    TunedLimitInForceIff(p, tuned, order, maximum, g, x, before);
    var j := LastOf(order, x);
    assert AppendedCounts(p.settings, limits, order, maximum, g, j);
    assert SomeAppended(p.settings, limits, order, maximum, g);
  }

  lemma {:induction false} LastOf(order: seq<string>, x: string) returns (j: nat)
    requires x in order
    ensures j < |order| && order[j] == x && forall k :: j < k < |order| ==> order[k] != x
  {
    var n := |order| - 1;
    if order[n] == x {
      j := n;
    } else {
      j := LastOf(order[..n], x);
    }
  }

  /** Two stored settings for one GPU: the tune changes the first, and the second, at 200 W, stays in force. */
  lemma SecondSettingWins()
    ensures var stored :=
            Profile("p", "p", "NVIDIA", [Setting("0", 0, 0, 0, 0, 100, 0), Setting("0", 0, 0, 0, 0, 200, 0)]);
            var tuned := [Setting("0", 0, 0, 0, 0, 150, 0)];
            After(TunedProfile(stored, tuned, ["0"], 0).settings, 0, Power, 0) == 200
  {
    var a, b := Setting("0", 0, 0, 0, 0, 100, 0), Setting("0", 0, 0, 0, 0, 200, 0);
    var tuned := [Setting("0", 0, 0, 0, 0, 150, 0)];
    assert TunedLimits(tuned) == map["0" := 150] by { assert tuned[..0] == []; }
    assert [a, b][..1] == [a] && [a][..0] == [];
    assert !IsWildcard("0") by { assert "0"[0] != "*"[0]; }
    var m := map["0" := 150];
    assert Retuned([a][..0], m) == ([], m);
    assert [a][0].selector in m;
    var (one, left) := Retuned([a], m);
    assert one == [a.(power := 150)] && left == map[];
    assert [a, b][..1] == [a] && [a, b][1] == b;
    var (both, none) := Retuned([a, b], m);
    assert !(b.selector in left);
    assert both == one + [b] && none == left;
    assert Appended(none, ["0"]) == [] by { assert ["0"][..0] == []; }
    assert TunedProfile(Profile("p", "p", "NVIDIA", [a, b]), tuned, ["0"], 0).settings == both;
    assert ParseInt("0") == 0;
    assert both[1] == b && Covers(b, 0, Power);
  }
}
