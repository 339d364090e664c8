/**
 What a rig is told: the served configuration read off the stored resources, reference by
 reference, without following how it is put together.
 */
module ServedContent {
  import opened Wrappers
  import opened Tuning
  import opened Templates
  import opened StoreState
  import opened StoreEffects
  import opened StoreRuns
  import opened StoreIntegrity
  import PowerPolicy

  /** The stored miner in everything but its algorithm and arguments. */
  ghost predicate SameBinary(m: Miner, stored: Miner) {
    && m.id == stored.id && m.catalogId == stored.catalogId && m.name == stored.name && m.profile == stored.profile
    && m.managedBinary == stored.managedBinary && m.binaryName == stored.binaryName
    && m.entryPoint == stored.entryPoint && m.binarySha256 == stored.binarySha256
    && m.packageSha256 == stored.packageSha256
  }

  /**
   A workload of the sheet: the overrides of the sheet or the stored pool, the stored wallet and
   miner, and the template filled with the wallet's address and the worker's name, or the rig's.
   */
  ghost predicate Mines(s: State, sheet: Sheet, rigName: string, w: Workload) {
    && sheet.poolId in s.pools && sheet.walletId in s.wallets && sheet.minerId in s.miners
    && w.coin == sheet.coin && w.workerName == sheet.workerName
    && w.pool.url == (if sheet.poolUrlOverride != "" then sheet.poolUrlOverride else s.pools[sheet.poolId].url)
    && w.pool.password ==
       (if sheet.poolPasswordOverride != "" then sheet.poolPasswordOverride else s.pools[sheet.poolId].password)
    && w.wallet == s.wallets[sheet.walletId]
    && SameBinary(w.miner, s.miners[sheet.minerId])
    && (sheet.walletTemplate == "" ==> w.miningUser == "")
    && (sheet.walletTemplate != "" ==>
          w.miningUser == Render(sheet.walletTemplate, s.wallets[sheet.walletId].address,
                                 if sheet.workerName != "" then sheet.workerName else rigName))
  }

  /**
   The sheet's algorithm, spelled for the miner and its coin, on the command line where the catalog
   has a flag for it, between the miner's own extra arguments and those of the sheet, which come last.
   */
  ghost predicate TellsAlgorithm(cat: Catalog, stored: Miner, sheet: Sheet, w: Workload) {
    if stored.catalogId == "srbminer-multi" then
      && w.algorithm == sheet.algorithm && w.miner.algorithm == stored.algorithm
      && w.miner.extraArguments == sheet.extraArguments
    else if sheet.algorithm == "" then
      && w.algorithm == "" && w.miner.algorithm == stored.algorithm
      && w.miner.extraArguments == stored.extraArguments + sheet.extraArguments
    else
      var spelled := cat.forCoin(stored.catalogId, sheet.coin, sheet.algorithm);
      && w.algorithm == spelled && w.miner.algorithm == spelled
      && (stored.catalogId !in cat.flags ==>
            w.miner.extraArguments == stored.extraArguments + sheet.extraArguments)
      && (stored.catalogId in cat.flags ==>
            w.miner.extraArguments == stored.extraArguments
              + [cat.flags[stored.catalogId], cat.spelling(stored.catalogId, spelled)] + sheet.extraArguments)
  }

  lemma ResolvedMines(cat: Catalog, s: State, sheet: Sheet, rigName: string, last: map<Id, Miner>)
    requires SheetResolves(s, sheet)
    ensures Mines(s, sheet, rigName, Shown(cat, CloseOver(s, sheet), rigName, last))
    ensures TellsAlgorithm(cat, s.miners[sheet.minerId], sheet, Shown(cat, CloseOver(s, sheet), rigName, last))
  {
    hide Render, DropWorkers, SrbArguments, NeedsLogin;
  }

  /** Only default arguments differ. */
  ghost predicate SameButArguments(s: State, t: State) {
    && t == s.(miners := t.miners) && t.miners.Keys == s.miners.Keys
    && forall k :: k in s.miners ==>
         t.miners[k] == s.miners[k].(defaultArguments := t.miners[k].defaultArguments)
  }

  lemma ResolvingKeepsAllButArguments(cat: Catalog, s: State, sheet: Sheet)
    ensures SameButArguments(s, AfterResolving(cat, s, sheet))
    ensures AfterResolving(cat, s, sheet).sheets == s.sheets
  {
    hide RewritesStored, DropWorkers;
  }

  lemma AnotherMemoryMines(cat: Catalog, s: State, t: State, sheet: Sheet, rigName: string, w: Workload)
    requires SameButArguments(s, t) && Mines(t, sheet, rigName, w)
    requires TellsAlgorithm(cat, t.miners[sheet.minerId], sheet, w)
    ensures Mines(s, sheet, rigName, w) && TellsAlgorithm(cat, s.miners[sheet.minerId], sheet, w)
  {
    hide Render;
  }

  /**
   Every answer is what the store says: workloads of the assigned sheet and of its fallback, the
   delays of the assigned sheet where there is a fallback, and the stored profile under the
   stored ceiling.
   */
  ghost predicate Answers(cat: Catalog, s: State, rig: Rig, c: Configuration) {
    && c.revision == rig.desired.revision && c.maxPowerW == s.maxPowerW
    && c.watchdog == rig.desired.watchdog && c.autofan == rig.desired.autofan
    && (rig.desired.profileId == "" ==>
          c.overclock == PowerPolicy.Clamped(NO_PROFILE, s.maxPowerW, rig.telemetry.gpus))
    && (rig.desired.profileId != "" ==>
          && rig.desired.profileId in s.profiles
          && c.overclock == PowerPolicy.Clamped(s.profiles[rig.desired.profileId], s.maxPowerW, rig.telemetry.gpus))
    && (c.primary.Some? <==> rig.desired.sheetId != "")
    && (c.primary.None? ==> c.fallback.None?)
    && (c.primary.Some? ==>
          && rig.desired.sheetId in s.sheets
          && var sheet := s.sheets[rig.desired.sheetId];
             && Mines(s, sheet, rig.name, c.primary.value)
             && TellsAlgorithm(cat, s.miners[sheet.minerId], sheet, c.primary.value)
             && (c.fallback.Some? <==> sheet.fallbackId != "")
             && (c.fallback.Some? ==>
                   && sheet.fallbackId in s.sheets
                   && Mines(s, s.sheets[sheet.fallbackId], rig.name, c.fallback.value)
                   && TellsAlgorithm(cat, s.miners[s.sheets[sheet.fallbackId].minerId], s.sheets[sheet.fallbackId],
                        c.fallback.value)
                   && c.failoverAfter == sheet.failoverAfter && c.returnAfter == sheet.returnAfter))
    && (c.fallback.None? ==> c.failoverAfter == 0 && c.returnAfter == 0)
  }

  lemma SoundAnswers(cat: Catalog, s: State, rigId: Id, issued: set<Id>)
    requires Sound(s, issued) && Serve(cat, s, rigId).Served?
    ensures Answers(cat, s, s.rigs[rigId], Serve(cat, s, rigId).configuration)
  {
    hide Acyclic, Queues, NamesDiffer, SchedulesResolve, Keyed, Starts, Shown, AfterResolving, AfterServing, Mines,
         TellsAlgorithm, SameButArguments, PowerPolicy.Clamped;
    KeysKnown(s, issued);
    var rig := s.rigs[rigId];
    assert RigResolves(s, rig);
    if rig.desired.sheetId != "" {
      var sheet := s.sheets[rig.desired.sheetId];
      var first := AfterResolving(cat, s, sheet);
      var last := AfterServing(cat, s, rigId).miners;
      assert SheetResolves(s, sheet);
      ResolvedMines(cat, s, sheet, rig.name, last);
      ResolvingKeepsAllButArguments(cat, s, sheet);
      if sheet.fallbackId != "" {
        var fallback := s.sheets[sheet.fallbackId];
        assert SheetResolves(s, fallback);
        FallbackMines(cat, s, first, fallback, rig.name, last);
      }
    }
  }

  lemma FallbackMines(cat: Catalog, s: State, first: State, sheet: Sheet, rigName: string, last: map<Id, Miner>)
    requires SameButArguments(s, first) && SheetResolves(s, sheet)
    ensures Mines(s, sheet, rigName, Shown(cat, CloseOver(first, sheet), rigName, last))
    ensures TellsAlgorithm(cat, s.miners[sheet.minerId], sheet, Shown(cat, CloseOver(first, sheet), rigName, last))
  {
    hide Mines, TellsAlgorithm, Shown;
    ResolvedMines(cat, first, sheet, rigName, last);
    AnotherMemoryMines(cat, s, first, sheet, rigName, Shown(cat, CloseOver(first, sheet), rigName, last));
  }

  // ----- default arguments -----

  function Shortened(sheet: Sheet, argument: string): string {
    if sheet.walletTemplate == "" then argument else DropWorker(argument)
  }

  /** The value stands right behind the flag, as a sheet with or without a template shows them. */
  ghost predicate Tells(arguments: seq<string>, sheet: Sheet, flag: string, value: string) {
    exists i :: 0 <= i < |arguments| - 1 && arguments[i] == Shortened(sheet, flag)
        && arguments[i + 1] == Shortened(sheet, value)
  }

  /** One side of an SRBMiner command line. */
  ghost predicate TellsSide(arguments: seq<string>, sheet: Sheet, suffix: string, algorithm: string, url: string,
      wallet: string, password: string) {
    && Tells(arguments, sheet, "--algorithm" + suffix, algorithm) && Tells(arguments, sheet, "--pool" + suffix, url)
    && Tells(arguments, sheet, "--wallet" + suffix, wallet) && Tells(arguments, sheet, "--password" + suffix, password)
  }

  /**
   SRBMiner is told pool and wallet on its command line: those of the workload, on a dual sheet for
   the first device, and the stored secondary ones for the second.
   */
  ghost predicate TellsSrb(s: State, sheet: Sheet, w: Workload) {
    var arguments := w.miner.defaultArguments;
    var wallet := if sheet.walletTemplate != "" then "{WALLET}" else w.wallet.address + ".{WORKER}";
    && Tells(arguments, sheet, "--api-port", "21550") && Tells(arguments, sheet, "--api-rig-name", "{WORKER}")
    && (sheet.secondaryCoin == "" ==>
          && TellsSide(arguments, sheet, "", sheet.algorithm, w.pool.url, wallet, w.pool.password)
          && (Fold(sheet.deviceType) == "cpu" ==> Shortened(sheet, "--disable-gpu") in arguments)
          && (Fold(sheet.deviceType) == "gpu" ==> Shortened(sheet, "--disable-cpu") in arguments))
    && (sheet.secondaryCoin != "" ==>
          && TellsSide(arguments, sheet, "-" + Fold(sheet.deviceType), sheet.algorithm, w.pool.url, wallet,
               w.pool.password)
          && (sheet.secondaryWalletId in s.wallets && sheet.secondaryPoolId in s.pools ==>
                TellsSide(arguments, sheet, "-" + Fold(sheet.secondaryDeviceType), sheet.secondaryAlgorithm,
                  s.pools[sheet.secondaryPoolId].url, s.wallets[sheet.secondaryWalletId].address + ".{WORKER}",
                  s.pools[sheet.secondaryPoolId].password)))
  }

  ghost predicate Adjacent(arguments: seq<string>, flag: string, value: string) {
    exists i :: 0 <= i < |arguments| - 1 && arguments[i] == flag && arguments[i + 1] == value
  }

  lemma AdjacentIn(left: seq<string>, middle: seq<string>, right: seq<string>, flag: string, value: string)
    requires Adjacent(middle, flag, value)
    ensures Adjacent(left + middle + right, flag, value)
  {
    var i :| 0 <= i < |middle| - 1 && middle[i] == flag && middle[i + 1] == value;
    var all := left + middle + right;
    assert all[|left| + i] == flag && all[|left| + i + 1] == value;
  }

  lemma SideAdjacent(left: seq<string>, right: seq<string>, suffix: string, algorithm: string, pool: Endpoint,
      wallet: Wallet, template: string)
    ensures var all := left + SrbSide(suffix, algorithm, pool, wallet, template) + right;
            var shown := if template != "" then "{WALLET}" else wallet.address + ".{WORKER}";
            && Adjacent(all, "--algorithm" + suffix, algorithm) && Adjacent(all, "--pool" + suffix, pool.url)
            && Adjacent(all, "--wallet" + suffix, shown) && Adjacent(all, "--password" + suffix, pool.password)
  {
    var side := SrbSide(suffix, algorithm, pool, wallet, template);
    var shown := if template != "" then "{WALLET}" else wallet.address + ".{WORKER}";
    assert side[0] == "--algorithm" + suffix && side[1] == algorithm;
    assert side[2] == "--pool" + suffix && side[3] == pool.url;
    assert side[4] == "--wallet" + suffix && side[5] == shown;
    assert side[6] == "--password" + suffix && side[7] == pool.password;
    AdjacentIn(left, side, right, "--algorithm" + suffix, algorithm);
    AdjacentIn(left, side, right, "--pool" + suffix, pool.url);
    AdjacentIn(left, side, right, "--wallet" + suffix, shown);
    AdjacentIn(left, side, right, "--password" + suffix, pool.password);
  }

  lemma ToldShortened(arguments: seq<string>, sheet: Sheet, flag: string, value: string)
    requires Adjacent(arguments, flag, value)
    ensures Tells(ShortenedAll(sheet, arguments), sheet, flag, value)
  {
    var i :| 0 <= i < |arguments| - 1 && arguments[i] == flag && arguments[i + 1] == value;
    assert DropWorkers(arguments)[i] == DropWorker(flag) && DropWorkers(arguments)[i + 1] == DropWorker(value);
  }

  const API_ARGUMENTS := ["--api-enable", "--api-port", "21550", "--api-rig-name", "{WORKER}"]

  lemma SrbAdjacent(c: Closure, pool: Endpoint)
    ensures var all := SrbArguments(c, pool);
            var shown := if c.sheet.walletTemplate != "" then "{WALLET}" else c.wallet.address + ".{WORKER}";
            var first := if c.sheet.secondaryCoin == "" then "" else "-" + Fold(c.sheet.deviceType);
            var second := "-" + Fold(c.sheet.secondaryDeviceType);
            && Adjacent(all, "--api-port", "21550") && Adjacent(all, "--api-rig-name", "{WORKER}")
            && Adjacent(all, "--algorithm" + first, c.sheet.algorithm) && Adjacent(all, "--pool" + first, pool.url)
            && Adjacent(all, "--wallet" + first, shown) && Adjacent(all, "--password" + first, pool.password)
            && (c.sheet.secondaryCoin != "" ==>
                  && Adjacent(all, "--algorithm" + second, c.sheet.secondaryAlgorithm)
                  && Adjacent(all, "--pool" + second, c.pool2.url)
                  && Adjacent(all, "--wallet" + second, c.wallet2.address + ".{WORKER}")
                  && Adjacent(all, "--password" + second, c.pool2.password))
            && (c.sheet.secondaryCoin == "" && Fold(c.sheet.deviceType) == "cpu" ==> "--disable-gpu" in all)
            && (c.sheet.secondaryCoin == "" && Fold(c.sheet.deviceType) == "gpu" ==> "--disable-cpu" in all)
  {
    hide SrbSide, Fold, Adjacent;
    var sheet := c.sheet;
    var all := SrbArguments(c, pool);
    if sheet.secondaryCoin == "" {
      var one := SrbSide("", sheet.algorithm, pool, c.wallet, sheet.walletTemplate);
      var device := if Fold(sheet.deviceType) == "cpu" then ["--disable-gpu"]
                    else if Fold(sheet.deviceType) == "gpu" then ["--disable-cpu"] else [];
      assert all == [] + one + (device + API_ARGUMENTS);
      assert all == (one + device) + API_ARGUMENTS + [];
      SideAdjacent([], device + API_ARGUMENTS, "", sheet.algorithm, pool, c.wallet, sheet.walletTemplate);
      assert "--algorithm" + "" == "--algorithm" && "--pool" + "" == "--pool" && "--wallet" + "" == "--wallet"
             && "--password" + "" == "--password";
      ApiAdjacent(one + device);
    } else {
      var one := SrbSide("-" + Fold(sheet.deviceType), sheet.algorithm, pool, c.wallet, sheet.walletTemplate);
      var two := SrbSide("-" + Fold(sheet.secondaryDeviceType), sheet.secondaryAlgorithm, c.pool2, c.wallet2, "");
      assert all == [] + one + (two + API_ARGUMENTS);
      assert all == one + two + API_ARGUMENTS;
      assert all == (one + two) + API_ARGUMENTS + [];
      SideAdjacent([], two + API_ARGUMENTS, "-" + Fold(sheet.deviceType), sheet.algorithm, pool, c.wallet,
        sheet.walletTemplate);
      SideAdjacent(one, API_ARGUMENTS, "-" + Fold(sheet.secondaryDeviceType), sheet.secondaryAlgorithm, c.pool2,
        c.wallet2, "");
      ApiAdjacent(one + two);
    }
  }

  lemma ApiAdjacent(left: seq<string>)
    ensures Adjacent(left + API_ARGUMENTS + [], "--api-port", "21550")
    ensures Adjacent(left + API_ARGUMENTS + [], "--api-rig-name", "{WORKER}")
  {
    assert API_ARGUMENTS[1] == "--api-port" && API_ARGUMENTS[2] == "21550";
    assert API_ARGUMENTS[3] == "--api-rig-name" && API_ARGUMENTS[4] == "{WORKER}";
    AdjacentIn(left, API_ARGUMENTS, [], "--api-port", "21550");
    AdjacentIn(left, API_ARGUMENTS, [], "--api-rig-name", "{WORKER}");
  }

  function ShortenedAll(sheet: Sheet, arguments: seq<string>): seq<string> {
    if sheet.walletTemplate == "" then arguments else DropWorkers(arguments)
  }

  lemma InShortened(arguments: seq<string>, sheet: Sheet, argument: string)
    requires argument in arguments
    ensures Shortened(sheet, argument) in ShortenedAll(sheet, arguments)
  {
    var i :| 0 <= i < |arguments| && arguments[i] == argument;
    assert DropWorkers(arguments)[i] == DropWorker(argument);
  }

  lemma SideTold(all: seq<string>, sheet: Sheet, suffix: string, algorithm: string, url: string, wallet: string,
      password: string)
    requires Adjacent(all, "--algorithm" + suffix, algorithm) && Adjacent(all, "--pool" + suffix, url)
    requires Adjacent(all, "--wallet" + suffix, wallet) && Adjacent(all, "--password" + suffix, password)
    ensures TellsSide(ShortenedAll(sheet, all), sheet, suffix, algorithm, url, wallet, password)
  {
    hide Adjacent, Tells, DropWorkers, Shortened;
    ToldShortened(all, sheet, "--algorithm" + suffix, algorithm);
    ToldShortened(all, sheet, "--pool" + suffix, url);
    ToldShortened(all, sheet, "--wallet" + suffix, wallet);
    ToldShortened(all, sheet, "--password" + suffix, password);
  }

  lemma SrbShown(cat: Catalog, c: Closure, rigName: string, last: map<Id, Miner>)
    requires c.miner.catalogId == "srbminer-multi"
    ensures var w := Shown(cat, c, rigName, last);
            var all := SrbArguments(c, EffectivePool(c));
            && w.pool == EffectivePool(c) && w.wallet == c.wallet
            && w.miner.defaultArguments == ShortenedAll(c.sheet, all)
  {
    hide Render, SrbArguments, DropWorkers, EffectivePool;
  }

  lemma ResolvedTellsSrb(cat: Catalog, s: State, sheet: Sheet, rigName: string, last: map<Id, Miner>)
    requires SheetResolves(s, sheet) && s.miners[sheet.minerId].catalogId == "srbminer-multi"
    ensures TellsSrb(s, sheet, Shown(cat, CloseOver(s, sheet), rigName, last))
  {
    hide SrbArguments, Fold, Adjacent, Tells, TellsSide, ShortenedAll, Shortened, Shown, EffectivePool;
    var c := CloseOver(s, sheet);
    var all := SrbArguments(c, EffectivePool(c));
    var w := Shown(cat, c, rigName, last);
    SrbShown(cat, c, rigName, last);
    SrbAdjacent(c, w.pool);
    ToldShortened(all, sheet, "--api-port", "21550");
    ToldShortened(all, sheet, "--api-rig-name", "{WORKER}");
    var wallet := if sheet.walletTemplate != "" then "{WALLET}" else w.wallet.address + ".{WORKER}";
    var first := if sheet.secondaryCoin == "" then "" else "-" + Fold(sheet.deviceType);
    SideTold(all, sheet, first, sheet.algorithm, w.pool.url, wallet, w.pool.password);
    if sheet.secondaryCoin != "" {
      SideTold(all, sheet, "-" + Fold(sheet.secondaryDeviceType), sheet.secondaryAlgorithm, c.pool2.url,
        c.wallet2.address + ".{WORKER}", c.pool2.password);
    } else if Fold(sheet.deviceType) == "cpu" {
      InShortened(all, sheet, "--disable-gpu");
    } else if Fold(sheet.deviceType) == "gpu" {
      InShortened(all, sheet, "--disable-cpu");
    }
  }

  /** Dropped from an argument never, once or twice: by its own sheet, and by another that shares the miner. */
  ghost predicate Rewritten(was: string, now: string) {
    now == was || now == DropWorker(was) || now == DropWorker(DropWorker(was))
  }

  /** An EPIC miner whose command line does not say how to log in is told. */
  ghost predicate ToldLogin(stored: Miner, w: Workload) {
    && stored.catalogId == "epic-miner" && !HasArgument(stored.defaultArguments, "--stratum-login")
    && !HasArgument(w.miner.extraArguments, "--stratum-login")
  }

  /**
   Any other miner keeps its stored default arguments, in their order, but for the worker's name where
   a template already carries it, and the login behind them where it is missing.
   */
  ghost predicate KeepsArguments(stored: Miner, sheet: Sheet, w: Workload) {
    var was, now := stored.defaultArguments, w.miner.defaultArguments;
    && |now| == |was| + (if ToldLogin(stored, w) then 2 else 0)
    && (ToldLogin(stored, w) ==> now[|was|..] == ["--stratum-login", "{STRATUM_LOGIN}"])
    && AllRewritten(sheet, was, now)
  }

  ghost predicate AllRewritten(sheet: Sheet, was: seq<string>, now: seq<string>) {
    && |was| <= |now|
    && forall i :: 0 <= i < |was| ==>
         && Rewritten(was[i], now[i])
         && (sheet.walletTemplate != "" && Contains(was[i], "{WALLET}.{WORKER}") ==> |now[i]| < |was[i]|)
  }

  lemma PairShows(argument: string)
    requires StartsWith(argument, PAIR)
    ensures '.' in argument && '{' in argument
  {
    assert argument[0] == argument[..|PAIR|][0] == '{';
    assert argument[8] == argument[..|PAIR|][8] == '.';
  }

  lemma {:induction false} NothingToDrop(argument: string)
    requires '.' !in argument
    ensures DropWorker(argument) == argument
  {
    if StartsWith(argument, PAIR) {
      PairShows(argument);
    } else if argument != "" {
      NothingToDrop(argument[1..]);
      assert argument == [argument[0]] + argument[1..];
    }
  }

  /** Dropping the worker does not touch what comes before the first brace. */
  lemma {:induction false} SameStart(argument: string, prefix: string)
    requires '{' !in prefix
    ensures StartsWith(DropWorker(argument), prefix) <==> StartsWith(argument, prefix)
  {
    if argument != "" && prefix != "" {
      if StartsWith(argument, PAIR) {
        assert argument[0] == argument[..|PAIR|][0] == '{';
        assert DropWorker(argument)[0] == '{';
      } else {
        SameStart(argument[1..], prefix[1..]);
        var now := DropWorker(argument);
        assert now == [argument[0]] + DropWorker(argument[1..]);
        StartsStep(argument, prefix);
        StartsStep(now, prefix);
      }
    }
  }

  lemma StartsStep(s: string, prefix: string)
    requires s != "" && prefix != ""
    ensures StartsWith(s, prefix) <==> s[0] == prefix[0] && StartsWith(s[1..], prefix[1..])
  {
    if s[0] == prefix[0] && StartsWith(s[1..], prefix[1..]) {
      assert s[..|prefix|] == [s[0]] + s[1..][..|prefix| - 1];
      assert prefix == [prefix[0]] + prefix[1..];
    }
    if StartsWith(s, prefix) {
      assert s[1..][..|prefix| - 1] == s[..|prefix|][1..];
    }
  }

  lemma {:induction false} NothingDropped(argument: string)
    requires '{' !in DropWorker(argument)
    ensures DropWorker(argument) == argument
  {
    if argument != "" {
      var now := DropWorker(argument);
      if !StartsWith(argument, PAIR) {
        assert now == [argument[0]] + DropWorker(argument[1..]);
        NothingDropped(argument[1..]);
      }
    }
  }

  const LOGIN := "--stratum-login"

  lemma SameLogin(argument: string)
    ensures DropWorker(argument) == LOGIN <==> argument == LOGIN
    ensures StartsWith(DropWorker(argument), LOGIN + "=") <==> StartsWith(argument, LOGIN + "=")
  {
    hide DropWorker, StartsWith;
    NothingToDrop(LOGIN);
    assert '{' !in LOGIN + "=";
    SameStart(argument, LOGIN + "=");
    if DropWorker(argument) == LOGIN {
      NothingDropped(argument);
    }
  }

  lemma LoginStays(arguments: seq<string>)
    ensures HasArgument(DropWorkers(arguments), LOGIN) <==> HasArgument(arguments, LOGIN)
  {
    hide DropWorker, StartsWith;
    var now := DropWorkers(arguments);
    forall i | 0 <= i < |arguments|
      ensures now[i] == LOGIN <==> arguments[i] == LOGIN
      ensures StartsWith(now[i], LOGIN + "=") <==> StartsWith(arguments[i], LOGIN + "=")
    {
      SameLogin(arguments[i]);
    }
  }

  lemma LoginIn(a: seq<string>, b: seq<string>)
    ensures HasArgument(a + b, LOGIN) <==> HasArgument(a, LOGIN) || HasArgument(b, LOGIN)
  {
    hide StartsWith;
    if HasArgument(a, LOGIN) {
      var i :| 0 <= i < |a| && (a[i] == LOGIN || StartsWith(a[i], LOGIN + "="));
      assert (a + b)[i] == a[i];
    }
    if HasArgument(b, LOGIN) {
      var i :| 0 <= i < |b| && (b[i] == LOGIN || StartsWith(b[i], LOGIN + "="));
      assert (a + b)[|a| + i] == b[i];
    }
  }

  /** One resolving leaves a miner's arguments alone or drops the worker from them. */
  ghost predicate OneStep(was: seq<string>, now: seq<string>) {
    now == was || now == DropWorkers(was)
  }

  lemma ResolvingSteps(cat: Catalog, s: State, sheet: Sheet, id: Id)
    requires id in s.miners
    ensures id in AfterResolving(cat, s, sheet).miners
    ensures OneStep(s.miners[id].defaultArguments, AfterResolving(cat, s, sheet).miners[id].defaultArguments)
  {
    hide RewritesStored, DropWorkers, PoolEndpoint;
  }

  lemma ResolvingShortensShared(cat: Catalog, s: State, sheet: Sheet)
    requires sheet.minerId in s.miners && SharesArguments(cat, CloseOver(s, sheet))
    ensures var t := AfterResolving(cat, s, sheet);
            && sheet.minerId in t.miners
            && t.miners[sheet.minerId].defaultArguments
                 == ShortenedAll(sheet, s.miners[sheet.minerId].defaultArguments)
  {
    hide SharesArguments, DropWorkers, PoolEndpoint;
  }

  /** The arguments shown are the shared ones, or the rewritten own copy with the login behind. */
  lemma ShownArguments(cat: Catalog, t: State, sheet: Sheet, rigName: string, last: map<Id, Miner>)
    requires SheetResolves(t, sheet) && sheet.minerId in last
    requires t.miners[sheet.minerId].catalogId != "srbminer-multi"
    ensures var stored := t.miners[sheet.minerId];
            var w := Shown(cat, CloseOver(t, sheet), rigName, last);
            && (ToldLogin(stored, w) <==> !SharesArguments(cat, CloseOver(t, sheet)))
            && (SharesArguments(cat, CloseOver(t, sheet)) ==>
                  w.miner.defaultArguments == last[sheet.minerId].defaultArguments)
            && (!SharesArguments(cat, CloseOver(t, sheet)) ==>
                  w.miner.defaultArguments ==
                    ShortenedAll(sheet, stored.defaultArguments + ["--stratum-login", "{STRATUM_LOGIN}"]))
  {
    hide Render, DropWorkers, HasArgument;
    var coded := MinerWithAlgorithm(cat, CloseOver(t, sheet));
    LoginIn(coded.extraArguments, sheet.extraArguments);
  }

  /** Shortened for its own sheet and then perhaps once more, or perhaps once before. */
  lemma TwiceRewritten(sheet: Sheet, was: seq<string>, middle: seq<string>, now: seq<string>)
    requires || (middle == ShortenedAll(sheet, was) && OneStep(middle, now))
             || (OneStep(was, middle) && now == ShortenedAll(sheet, middle))
    ensures |now| == |was| && AllRewritten(sheet, was, now)
  {
    hide DropWorker, Contains;
    forall i | 0 <= i < |was|
      ensures Rewritten(was[i], now[i])
      ensures sheet.walletTemplate != "" && Contains(was[i], "{WALLET}.{WORKER}") ==> |now[i]| < |was[i]|
    {
      DropWorkerInert(was[i]);
    }
  }

  lemma LoginBehind(sheet: Sheet, was: seq<string>, own: seq<string>, now: seq<string>)
    requires |own| == |was| && AllRewritten(sheet, was, ShortenedAll(sheet, own))
    requires now == ShortenedAll(sheet, own + ["--stratum-login", "{STRATUM_LOGIN}"])
    ensures |now| == |was| + 2 && now[|was|..] == ["--stratum-login", "{STRATUM_LOGIN}"]
    ensures AllRewritten(sheet, was, now)
  {
    hide DropWorker, Contains;
    NothingToDrop("--stratum-login");
    NothingToDrop("{STRATUM_LOGIN}");
    var n := |own|;
    assert now[n] == "--stratum-login" && now[n + 1] == "{STRATUM_LOGIN}";
    assert forall i :: 0 <= i < n ==> now[i] == ShortenedAll(sheet, own)[i];
  }

  lemma ShownKeeps(cat: Catalog, s: State, t: State, sheet: Sheet, rigName: string, last: map<Id, Miner>)
    requires SameButArguments(s, t) && SheetResolves(s, sheet) && SheetResolves(t, sheet)
    requires s.miners[sheet.minerId].catalogId != "srbminer-multi" && sheet.minerId in last
    requires OneStep(s.miners[sheet.minerId].defaultArguments, t.miners[sheet.minerId].defaultArguments)
    requires SharesArguments(cat, CloseOver(t, sheet)) ==>
               AllRewritten(sheet, s.miners[sheet.minerId].defaultArguments, last[sheet.minerId].defaultArguments)
               && |last[sheet.minerId].defaultArguments| == |s.miners[sheet.minerId].defaultArguments|
    ensures KeepsArguments(s.miners[sheet.minerId], sheet, Shown(cat, CloseOver(t, sheet), rigName, last))
  {
    hide SharesArguments, Shown, DropWorkers, HasArgument, AllRewritten, CloseOver;
    var was, own := s.miners[sheet.minerId].defaultArguments, t.miners[sheet.minerId].defaultArguments;
    var w := Shown(cat, CloseOver(t, sheet), rigName, last);
    ShownArguments(cat, t, sheet, rigName, last);
    LoginStays(was);
    assert ToldLogin(s.miners[sheet.minerId], w) <==> ToldLogin(t.miners[sheet.minerId], w);
    if !SharesArguments(cat, CloseOver(t, sheet)) {
      TwiceRewritten(sheet, was, own, ShortenedAll(sheet, own));
      LoginBehind(sheet, was, own, w.miner.defaultArguments);
    }
  }

  /** How the command line of a workload comes about: built for SRBMiner, kept for every other miner. */
  ghost predicate TellsArguments(s: State, sheet: Sheet, w: Workload) {
    && sheet.minerId in s.miners
    && if s.miners[sheet.minerId].catalogId == "srbminer-multi" then TellsSrb(s, sheet, w)
       else KeepsArguments(s.miners[sheet.minerId], sheet, w)
  }

  /** Without a fallback the stored arguments are shortened exactly once, where the sheet has a template. */
  ghost predicate ShortenedOnce(s: State, sheet: Sheet, w: Workload) {
    && sheet.minerId in s.miners
    && (s.miners[sheet.minerId].catalogId != "srbminer-multi" ==>
          var was := s.miners[sheet.minerId].defaultArguments;
          && |was| <= |w.miner.defaultArguments|
          && forall i :: 0 <= i < |was| ==> w.miner.defaultArguments[i] == Shortened(sheet, was[i]))
  }

  lemma PrimaryArguments(cat: Catalog, s: State, sheet: Sheet, rigName: string, last: map<Id, Miner>)
    requires SheetResolves(s, sheet)
    requires var first := AfterResolving(cat, s, sheet).miners;
             sheet.minerId in first && sheet.minerId in last
             && OneStep(first[sheet.minerId].defaultArguments, last[sheet.minerId].defaultArguments)
    ensures TellsArguments(s, sheet, Shown(cat, CloseOver(s, sheet), rigName, last))
    ensures last == AfterResolving(cat, s, sheet).miners ==>
              ShortenedOnce(s, sheet, Shown(cat, CloseOver(s, sheet), rigName, last))
  {
    hide SharesArguments, Shown, DropWorkers, CloseOver, AfterResolving, AllRewritten, KeepsArguments, TellsSrb,
         ToldLogin;
    if s.miners[sheet.minerId].catalogId == "srbminer-multi" {
      ResolvedTellsSrb(cat, s, sheet, rigName, last);
    } else {
      var was := s.miners[sheet.minerId].defaultArguments;
      if SharesArguments(cat, CloseOver(s, sheet)) {
        ResolvingShortensShared(cat, s, sheet);
        TwiceRewritten(sheet, was, ShortenedAll(sheet, was), last[sheet.minerId].defaultArguments);
      }
      ShownKeeps(cat, s, s, sheet, rigName, last);
      ShownArguments(cat, s, sheet, rigName, last);
      OnceEach(sheet, was, was);
      OnceEach(sheet, was, was + ["--stratum-login", "{STRATUM_LOGIN}"]);
    }
  }

  lemma OnceEach(sheet: Sheet, was: seq<string>, own: seq<string>)
    requires was <= own
    ensures |was| <= |ShortenedAll(sheet, own)|
    ensures forall i :: 0 <= i < |was| ==> ShortenedAll(sheet, own)[i] == Shortened(sheet, was[i])
  {
    hide DropWorker;
  }

  lemma FallbackArguments(cat: Catalog, s: State, first: State, sheet: Sheet, rigName: string)
    requires SameButArguments(s, first) && SheetResolves(s, sheet)
    requires OneStep(s.miners[sheet.minerId].defaultArguments, first.miners[sheet.minerId].defaultArguments)
    ensures TellsArguments(s, sheet,
              Shown(cat, CloseOver(first, sheet), rigName, AfterResolving(cat, first, sheet).miners))
  {
    hide SharesArguments, Shown, DropWorkers, CloseOver, AfterResolving, AllRewritten, KeepsArguments, ToldLogin,
         TellsSide, Tells, Shortened, Fold;
    var last := AfterResolving(cat, first, sheet).miners;
    ResolvingSteps(cat, first, sheet, sheet.minerId);
    if s.miners[sheet.minerId].catalogId == "srbminer-multi" {
      ResolvedTellsSrb(cat, first, sheet, rigName, last);
    } else {
      var was, own := s.miners[sheet.minerId].defaultArguments, first.miners[sheet.minerId].defaultArguments;
      if SharesArguments(cat, CloseOver(first, sheet)) {
        ResolvingShortensShared(cat, first, sheet);
        TwiceRewritten(sheet, was, own, last[sheet.minerId].defaultArguments);
      }
      ShownKeeps(cat, s, first, sheet, rigName, last);
    }
  }

  ghost predicate AnswersArguments(s: State, rig: Rig, c: Configuration) {
    c.primary.Some? ==>
      && rig.desired.sheetId in s.sheets
      && var sheet := s.sheets[rig.desired.sheetId];
         && TellsArguments(s, sheet, c.primary.value)
         && (c.fallback.None? ==> ShortenedOnce(s, sheet, c.primary.value))
         && (c.fallback.Some? ==>
               && sheet.fallbackId in s.sheets
               && TellsArguments(s, s.sheets[sheet.fallbackId], c.fallback.value))
  }

  /** The command lines of every answer. */
  lemma SoundArguments(cat: Catalog, s: State, rigId: Id, issued: set<Id>)
    requires Sound(s, issued) && Serve(cat, s, rigId).Served?
    ensures AnswersArguments(s, s.rigs[rigId], Serve(cat, s, rigId).configuration)
  {
    hide Acyclic, Queues, NamesDiffer, SchedulesResolve, Keyed, Starts, Shown, AfterResolving, TellsArguments,
         ShortenedOnce, SameButArguments, PowerPolicy.Clamped, OneStep;
    KeysKnown(s, issued);
    var rig := s.rigs[rigId];
    assert RigResolves(s, rig);
    if rig.desired.sheetId != "" {
      var sheet := s.sheets[rig.desired.sheetId];
      var first := AfterResolving(cat, s, sheet);
      var last := AfterServing(cat, s, rigId).miners;
      assert SheetResolves(s, sheet);
      ResolvingKeepsAllButArguments(cat, s, sheet);
      ResolvingSteps(cat, s, sheet, sheet.minerId);
      if sheet.fallbackId != "" {
        var fallback := s.sheets[sheet.fallbackId];
        assert SheetResolves(s, fallback);
        ResolvingSteps(cat, first, fallback, sheet.minerId);
        ResolvingSteps(cat, s, sheet, fallback.minerId);
        FallbackArguments(cat, s, first, fallback, rig.name);
      } else {
        NoStep(first.miners[sheet.minerId].defaultArguments);
      }
      PrimaryArguments(cat, s, sheet, rig.name, last);
    }
  }

  lemma NoStep(arguments: seq<string>)
    ensures OneStep(arguments, arguments)
  {
  }

  lemma ServedIsKnown(cat: Catalog, s: State, rigId: Id)
    ensures Serve(cat, s, rigId).Served? ==> rigId in s.rigs
  {
  }

  /** Both hold of every answer in every reachable store. */
  lemma EveryAnswer(cat: Catalog, events: seq<Event>, rigId: Id)
    requires Possible(cat, NewStore(), events)
    requires Serve(cat, Run(cat, NewStore(), events).memory, rigId).Served?
    ensures var s := Run(cat, NewStore(), events).memory;
            && rigId in s.rigs
            && Answers(cat, s, s.rigs[rigId], Serve(cat, s, rigId).configuration)
            && AnswersArguments(s, s.rigs[rigId], Serve(cat, s, rigId).configuration)
  {
    hide Sound, Serve, Possible, Run, Answers, AnswersArguments;
    NewStoreSound();
    RunSound(cat, NewStore(), events);
    var db := Run(cat, NewStore(), events);
    ServedIsKnown(cat, db.memory, rigId);
    SoundAnswers(cat, db.memory, rigId, db.issued);
    SoundArguments(cat, db.memory, rigId, db.issued);
  }
}
