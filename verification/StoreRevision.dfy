/**
 A rig's revision is a sound version of the mining configuration it is served, across
 operations, failed saves and restarts; and exactly when the two leaks around it stay shut.
 */
module StoreRevision {
  import opened Wrappers
  import opened Tuning
  import opened Templates
  import opened CommandQueue
  import opened StoreState
  import opened StoreEffects
  import opened StoreRuns
  import opened StoreIntegrity

  // ----- the two leaks -----

  predicate ShowsRigName(sheet: Sheet) {
    sheet.walletTemplate != "" && sheet.workerName == "" && MentionsWorker(sheet.walletTemplate)
  }

  predicate RigNameShows(s: State, rig: Rig) {
    || (rig.desired.sheetId in s.sheets && ShowsRigName(s.sheets[rig.desired.sheetId]))
    || (rig.desired.sheetId in s.sheets && s.sheets[rig.desired.sheetId].fallbackId in s.sheets
        && ShowsRigName(s.sheets[s.sheets[rig.desired.sheetId].fallbackId]))
  }

  /** An assignment that does not rename the rig, or bumps it, or renames it where no template shows the name. */
  predicate QuietRename(s: State, rigId: Id, a: Assignment) {
    rigId in s.rigs ==>
      || a.name == "" || a.name == s.rigs[rigId].name
      || DesiredChanges(s.rigs[rigId].desired, a)
      || !RigNameShows(s, s.rigs[rigId])
  }

  predicate NoPair(arguments: seq<string>) {
    forall i :: 0 <= i < |arguments| ==> !Contains(arguments[i], PAIR)
  }

  predicate QuietSheet(cat: Catalog, s: State, sheet: Sheet) {
    sheet.minerId in s.miners && RewritesStored(cat, CloseOver(s, sheet)) ==>
        NoPair(s.miners[sheet.minerId].defaultArguments)
  }

  /** A read whose sheets rewrite nothing, or rewrite arguments that do not contain the pair. */
  predicate QuietRead(cat: Catalog, s: State, rigId: Id) {
    rigId in s.rigs && s.rigs[rigId].desired.sheetId in s.sheets ==>
      var sheet := s.sheets[s.rigs[rigId].desired.sheetId];
      && QuietSheet(cat, s, sheet)
      && (Starts(cat, CloseOver(s, sheet)) && sheet.fallbackId in s.sheets ==>
          QuietSheet(cat, s, s.sheets[sheet.fallbackId]))
  }

  predicate Quiet(cat: Catalog, s: State, op: Op) {
    match op
    case OpAssign(r, a) => QuietRename(s, r, a)
    case OpServe(r) => QuietRead(cat, s, r)
    case _ => true
  }

  ghost predicate QuietRun(cat: Catalog, db: Db, events: seq<Event>)
    decreases |events|
  {
    events != [] ==>
      && Quiet(cat, db.memory, events[0].op)
      && QuietRun(cat, Step(cat, db, events[0].op, events[0].saved), events[1..])
  }

  lemma DropWorkersInert(arguments: seq<string>)
    ensures DropWorkers(arguments) == arguments <==> NoPair(arguments)
  {
    forall i | 0 <= i < |arguments|
      ensures DropWorker(arguments[i]) == arguments[i] <==> !Contains(arguments[i], PAIR)
    {
      DropWorkerInert(arguments[i]);
    }
    if DropWorkers(arguments) == arguments {
      assert forall i :: 0 <= i < |arguments| ==> DropWorkers(arguments)[i] == arguments[i];
    }
  }

  lemma MinerPutInert(miners: map<Id, Miner>, id: Id, m: Miner)
    requires id in miners
    ensures miners[id := m] == miners <==> m == miners[id]
    ensures miners[id := m].Keys == miners.Keys
  {
    assert miners[id := m][id] == m;
  }

  lemma ResolvingInert(cat: Catalog, s: State, sheet: Sheet)
    ensures AfterResolving(cat, s, sheet) == s <==> QuietSheet(cat, s, sheet)
    ensures AfterResolving(cat, s, sheet).miners.Keys == s.miners.Keys
  {
    hide RewritesStored, NoPair, DropWorkers, PoolEndpoint;
    if sheet.minerId in s.miners {
      var m := s.miners[sheet.minerId];
      DropWorkersInert(m.defaultArguments);
      MinerPutInert(s.miners, sheet.minerId, m.(defaultArguments := DropWorkers(m.defaultArguments)));
    }
  }

  /** A quiet read leaves the stored state alone. */
  lemma QuietReadInert(cat: Catalog, s: State, rigId: Id)
    requires QuietRead(cat, s, rigId)
    ensures AfterServing(cat, s, rigId) == s
  {
    hide AfterResolving, QuietSheet, Starts;
    if rigId in s.rigs && s.rigs[rigId].desired.sheetId in s.sheets {
      var sheet := s.sheets[s.rigs[rigId].desired.sheetId];
      ResolvingInert(cat, s, sheet);
      if sheet.fallbackId in s.sheets {
        ResolvingInert(cat, s, s.sheets[sheet.fallbackId]);
      }
    }
  }

  /** The stored arguments of some miner have become shorter, or none changed. */
  ghost predicate Shorter(s: State, t: State) {
    && t.miners.Keys == s.miners.Keys
    && (forall k :: k in s.miners ==> NoLonger(s.miners[k].defaultArguments, t.miners[k].defaultArguments))
    && (t == s || exists k :: k in s.miners && SomeShorter(s.miners[k].defaultArguments, t.miners[k].defaultArguments))
  }

  ghost predicate NoLonger(a: seq<string>, b: seq<string>) {
    |a| == |b| && forall i :: 0 <= i < |a| ==> |b[i]| <= |a[i]|
  }

  ghost predicate SomeShorter(a: seq<string>, b: seq<string>) {
    |a| == |b| && exists i :: 0 <= i < |a| && |b[i]| < |a[i]|
  }

  lemma ResolvingShortens(cat: Catalog, s: State, sheet: Sheet)
    ensures Shorter(s, AfterResolving(cat, s, sheet))
  {
    hide RewritesStored, DropWorkers, PoolEndpoint, Contains;
    var t := AfterResolving(cat, s, sheet);
    if t != s {
      var was := s.miners[sheet.minerId].defaultArguments;
      ResolvingInert(cat, s, sheet);
      DropWorkersInert(was);
      var i :| 0 <= i < |was| && Contains(was[i], PAIR);
      DropWorkerInert(was[i]);
      assert |DropWorkers(was)[i]| < |was[i]|;
      assert SomeShorter(was, t.miners[sheet.minerId].defaultArguments);
    }
  }

  /** What became shorter never grows back. */
  lemma ShorterStays(s: State, t: State, u: State)
    requires Shorter(s, t) && Shorter(t, u) && t != s
    ensures u != s
  {
    var k :| k in s.miners && SomeShorter(s.miners[k].defaultArguments, t.miners[k].defaultArguments);
    var a, b, c := s.miners[k].defaultArguments, t.miners[k].defaultArguments, u.miners[k].defaultArguments;
    var i :| 0 <= i < |a| && |b[i]| < |a[i]|;
    assert NoLonger(b, c) && |c[i]| <= |b[i]|;
  }

  /**
   Serving a rig leaves the stored state alone if and only if the read is quiet: neither sheet
   rewrites stored arguments that contain the pair.
   */
  lemma ReadInertIff(cat: Catalog, s: State, rigId: Id)
    ensures AfterServing(cat, s, rigId) == s <==> QuietRead(cat, s, rigId)
  {
    hide AfterResolving, QuietSheet, Shorter, Starts;
    if rigId in s.rigs && s.rigs[rigId].desired.sheetId in s.sheets {
      var sheet := s.sheets[s.rigs[rigId].desired.sheetId];
      var first := AfterResolving(cat, s, sheet);
      ResolvingInert(cat, s, sheet);
      if sheet.fallbackId in s.sheets {
        var second := s.sheets[sheet.fallbackId];
        ResolvingInert(cat, s, second);
        if first != s {
          ResolvingShortens(cat, s, sheet);
          ResolvingShortens(cat, first, second);
          ShorterStays(s, first, AfterResolving(cat, first, second));
        }
      }
    }
  }

  lemma ResolveShowsName(cat: Catalog, c: Closure, a: string, b: string)
    requires a != b
    ensures Resolve(cat, c, a) == Resolve(cat, c, b) <==> !ShowsRigName(c.sheet)
  {
    hide Render, MentionsWorker, DropWorkers, MinerWithAlgorithm, NeedsLogin;
    if c.sheet.walletTemplate != "" && c.sheet.workerName == "" {
      RenderShowsWorker(c.sheet.walletTemplate, c.wallet.address, a, b);
    }
    assert Resolve(cat, c, b) == Resolve(cat, c, a).(miningUser := Resolve(cat, c, b).miningUser);
  }

  /**
   Renaming a rig without any other change alters its mining user, unannounced, exactly when a
   template shows the name.
   */
  lemma RenameLeaksIff(cat: Catalog, s: State, rigId: Id, a: Assignment)
    requires rigId in s.rigs && Accepts(s, rigId, a)
    requires !DesiredChanges(s.rigs[rigId].desired, a) && a.name != "" && a.name != s.rigs[rigId].name
    ensures var t := AssignWorker(s, rigId, a).next;
            && t.rigs[rigId].desired.revision == s.rigs[rigId].desired.revision
            && (MiningOf(cat, t, t.rigs[rigId]) == MiningOf(cat, s, s.rigs[rigId]) <==> !RigNameShows(s, s.rigs[rigId]))
  {
    hide Accepts, Resolve, ShowsRigName;
    var t := AssignWorker(s, rigId, a).next;
    var was, now := s.rigs[rigId], t.rigs[rigId];
    assert Inputs(t, now) == Inputs(s, was);
    var i := Inputs(s, was);
    if i.primary.Some? { ResolveShowsName(cat, i.primary.value, was.name, now.name); }
    if i.fallback.Some? { ResolveShowsName(cat, i.fallback.value, was.name, now.name); }
  }

  // ----- the rule one step keeps -----

  /** A rig either moved to a later revision or its mining configuration did not change. */
  ghost predicate Versioned(cat: Catalog, s: State, a: Rig, t: State, b: Rig) {
    && a.desired.revision <= b.desired.revision
    && (a.desired.revision == b.desired.revision ==> MiningOf(cat, s, a) == MiningOf(cat, t, b))
  }

  ghost predicate Advances(cat: Catalog, s: State, t: State) {
    forall r :: r in s.rigs && r in t.rigs ==> Versioned(cat, s, s.rigs[r], t, t.rigs[r])
  }

  /** The same rig but for telemetry and commands. */
  predicate SameDesire(a: Rig, b: Rig) {
    a.name == b.name && a.desired == b.desired
  }

  /** Every rig of t is as in s, or newer. */
  ghost predicate KeptOrBumped(s: State, t: State) {
    forall r :: r in s.rigs && r in t.rigs ==>
      s.rigs[r].desired.revision < t.rigs[r].desired.revision ||
      (SameDesire(s.rigs[r], t.rigs[r]) && Inputs(s, s.rigs[r]) == Inputs(t, t.rigs[r]))
  }

  lemma KeptOrBumpedAdvances(cat: Catalog, s: State, t: State)
    requires KeptOrBumped(s, t)
    ensures Advances(cat, s, t)
  {
    hide Inputs, MiningFrom;
  }

  /** t has everything s has, unchanged. */
  ghost predicate Extends(s: State, t: State) {
    && "" !in t.wallets && "" !in t.pools && "" !in t.sheets && "" !in t.profiles
    && (forall k :: k in s.wallets ==> k in t.wallets && t.wallets[k] == s.wallets[k])
    && (forall k :: k in s.pools ==> k in t.pools && t.pools[k] == s.pools[k])
    && (forall k :: k in s.miners ==> k in t.miners && t.miners[k] == s.miners[k])
    && (forall k :: k in s.sheets ==> k in t.sheets && t.sheets[k] == s.sheets[k])
    && (forall k :: k in s.profiles ==> k in t.profiles && t.profiles[k] == s.profiles[k])
  }

  lemma ExtensionCloses(s: State, t: State, sheet: Sheet)
    requires Extends(s, t) && SheetResolves(s, sheet)
    ensures CloseOver(s, sheet) == CloseOver(t, sheet)
  {
  }

  /** What resolves in the smaller state means the same in the larger one. */
  lemma ExtensionInputs(s: State, t: State, rig: Rig)
    requires Extends(s, t) && SheetsResolve(s) && RigResolves(s, rig)
    ensures Inputs(s, rig) == Inputs(t, rig)
  {
    hide CloseOver, SheetResolves;
    if rig.desired.sheetId in s.sheets {
      var sheet := s.sheets[rig.desired.sheetId];
      assert SheetResolves(s, sheet);
      ExtensionCloses(s, t, sheet);
      FallbackResolves(s, sheet);
      if sheet.fallbackId in s.sheets {
        assert SheetResolves(s, s.sheets[sheet.fallbackId]);
        ExtensionCloses(s, t, s.sheets[sheet.fallbackId]);
      }
    }
  }

  lemma FallbackResolves(s: State, sheet: Sheet)
    requires SheetResolves(s, sheet)
    ensures sheet.fallbackId == "" || sheet.fallbackId in s.sheets
  {
  }

  lemma SoundParts(s: State, issued: set<Id>)
    requires Sound(s, issued)
    ensures SheetsResolve(s) && RigsResolve(s) && Keyed(s, issued)
    ensures "" !in s.wallets && "" !in s.pools && "" !in s.sheets && "" !in s.profiles
  {
    hide Acyclic, Queues, NamesDiffer, SchedulesResolve, SheetsResolve, RigsResolve;
  }

  /** Growing a sound state around unchanged or bumped rigs. */
  lemma GrownAdvances(cat: Catalog, s: State, t: State, issued: set<Id>)
    requires Sound(s, issued) && Extends(s, t)
    requires forall r :: r in s.rigs && r in t.rigs ==>
             s.rigs[r].desired.revision < t.rigs[r].desired.revision || SameDesire(s.rigs[r], t.rigs[r])
    ensures Advances(cat, s, t)
  {
    hide Sound, Extends, SheetsResolve, RigResolves, Keyed;
    SoundParts(s, issued);
    forall r | r in s.rigs && r in t.rigs && SameDesire(s.rigs[r], t.rigs[r])
      ensures Inputs(s, s.rigs[r]) == Inputs(t, t.rigs[r])
    {
      assert RigResolves(s, s.rigs[r]);
      ExtensionInputs(s, t, s.rigs[r]);
      assert Inputs(t, s.rigs[r]) == Inputs(t, t.rigs[r]);
    }
    KeptOrBumpedAdvances(cat, s, t);
  }

  /** Shrinking to a sound state loses nothing a rig depends on. */
  lemma ShrunkAdvances(cat: Catalog, s: State, t: State, issued: set<Id>)
    requires Sound(t, issued) && Extends(t, s)
    requires forall r :: r in s.rigs && r in t.rigs ==> SameDesire(s.rigs[r], t.rigs[r])
    ensures Advances(cat, s, t)
  {
    hide Sound, Extends, SheetsResolve, RigResolves, Keyed;
    SoundParts(t, issued);
    forall r | r in s.rigs && r in t.rigs
      ensures Inputs(s, s.rigs[r]) == Inputs(t, t.rigs[r])
    {
      assert RigResolves(t, t.rigs[r]);
      ExtensionInputs(t, s, t.rigs[r]);
      assert Inputs(s, s.rigs[r]) == Inputs(s, t.rigs[r]);
    }
    KeptOrBumpedAdvances(cat, s, t);
  }

  // ----- replacing one resource and telling the rigs that use it -----

  lemma WalletUnusedInputs(s: State, id: Id, v: Wallet, rig: Rig)
    requires !Affected(s.sheets, rig, WalletOf, id)
    ensures Inputs(s.(wallets := s.wallets[id := v]), rig) == Inputs(s, rig)
  {
  }

  lemma PoolUnusedInputs(s: State, id: Id, v: Pool, rig: Rig)
    requires !Affected(s.sheets, rig, PoolOf, id)
             || (id in s.pools && s.pools[id].url == v.url && s.pools[id].password == v.password)
    ensures Inputs(s.(pools := s.pools[id := v]), rig) == Inputs(s, rig)
  {
  }

  lemma MinerUnusedInputs(s: State, id: Id, v: Miner, rig: Rig)
    requires !Affected(s.sheets, rig, MinerOf, id)
    ensures Inputs(s.(miners := s.miners[id := v]), rig) == Inputs(s, rig)
  {
  }

  lemma ProfileUnusedInputs(s: State, id: Id, v: Profile, rig: Rig)
    requires !Affected(s.sheets, rig, ProfileOf, id)
    ensures Inputs(s.(profiles := s.profiles[id := v]), rig) == Inputs(s, rig)
  {
  }

  lemma SheetUnusedInputs(s: State, id: Id, v: Sheet, rig: Rig)
    requires !Affected(s.sheets[id := v], rig, SheetOf, id)
    ensures Inputs(s.(sheets := s.sheets[id := v]), rig) == Inputs(s, rig)
  {
    hide CloseOver;
    forall sheet: Sheet ensures CloseOver(s.(sheets := s.sheets[id := v]), sheet) == CloseOver(s, sheet) {
      ClosureIgnoresSheets(s, s.sheets[id := v], sheet);
    }
  }

  lemma ClosureIgnoresSheets(s: State, sheets: map<Id, Sheet>, sheet: Sheet)
    ensures CloseOver(s.(sheets := sheets), sheet) == CloseOver(s, sheet)
  {
  }

  /** Storing a resource and bumping the rigs it affects is versioned, if unaffected rigs see no difference. */
  lemma BumpedAdvances(cat: Catalog, s: State, t: State, kind: Resource, id: Id)
    requires t.rigs == s.rigs
    requires forall r :: r in s.rigs && !Affected(t.sheets, s.rigs[r], kind, id) ==>
             Inputs(t, s.rigs[r]) == Inputs(s, s.rigs[r])
    ensures Advances(cat, s, Bumped(t, kind, id))
  {
    hide Inputs, Affected;
    var u := Bumped(t, kind, id);
    forall r | r in s.rigs && !Affected(t.sheets, s.rigs[r], kind, id)
      ensures Inputs(u, u.rigs[r]) == Inputs(s, s.rigs[r])
    {
      InputsIgnoreRigs(t, u.rigs, s.rigs[r]);
    }
    KeptOrBumpedAdvances(cat, s, u);
  }

  lemma InputsIgnoreRigs(s: State, rigs: map<Id, Rig>, rig: Rig)
    ensures Inputs(s.(rigs := rigs), rig) == Inputs(s, rig)
  {
  }

  /** Rigs whose telemetry, commands or revision changed, nothing else. */
  lemma RigsOnlyAdvances(cat: Catalog, s: State, t: State)
    requires t.sheets == s.sheets && t.wallets == s.wallets && t.pools == s.pools && t.miners == s.miners
             && t.profiles == s.profiles
    requires forall r :: r in s.rigs && r in t.rigs ==>
             s.rigs[r].desired.revision < t.rigs[r].desired.revision || SameDesire(s.rigs[r], t.rigs[r])
    ensures Advances(cat, s, t)
  {
    forall r | r in s.rigs && r in t.rigs && SameDesire(s.rigs[r], t.rigs[r])
      ensures Inputs(s, s.rigs[r]) == Inputs(t, t.rigs[r])
    {
    }
    hide Inputs;
    KeptOrBumpedAdvances(cat, s, t);
  }

  lemma SaveWalletAdvances(cat: Catalog, s: State, v: Wallet, minted: Id)
    requires SaveWallet(s, v, minted, true).Save?
    ensures Advances(cat, s, SaveWallet(s, v, minted, true).next)
  {
    hide Inputs, Affected, Bumped, Advances;
    var id := if v.id == "" then minted else v.id;
    var t := s.(wallets := s.wallets[id := v.(id := id)]);
    forall r | r in s.rigs && !Affected(t.sheets, s.rigs[r], WalletOf, id)
      ensures Inputs(t, s.rigs[r]) == Inputs(s, s.rigs[r])
    {
      WalletUnusedInputs(s, id, v.(id := id), s.rigs[r]);
    }
    BumpedAdvances(cat, s, t, WalletOf, id);
  }

  lemma SavePoolAdvances(cat: Catalog, s: State, v: Pool, minted: Id, issued: set<Id>)
    requires Sound(s, issued) && minted !in issued && minted != "" && SavePool(s, v, minted, true).Save?
    ensures Advances(cat, s, SavePool(s, v, minted, true).next)
  {
    hide Sound, Inputs, Affected, Bumped, Advances;
    KeysKnown(s, issued);
    SoundParts(s, issued);
    if v.id == "" {
      var t := s.(pools := s.pools[minted := v.(id := minted)]);
      GrownAdvances(cat, s, t, issued);
    } else {
      var t := s.(pools := s.pools[v.id := v]);
      if s.pools[v.id].url != v.url || s.pools[v.id].password != v.password {
        forall r | r in s.rigs && !Affected(t.sheets, s.rigs[r], PoolOf, v.id)
          ensures Inputs(t, s.rigs[r]) == Inputs(s, s.rigs[r])
        {
          PoolUnusedInputs(s, v.id, v, s.rigs[r]);
        }
        BumpedAdvances(cat, s, t, PoolOf, v.id);
      } else {
        forall r | r in s.rigs ensures Inputs(t, s.rigs[r]) == Inputs(s, s.rigs[r]) {
          PoolUnusedInputs(s, v.id, v, s.rigs[r]);
        }
        KeptOrBumpedAdvances(cat, s, t);
      }
    }
  }

  lemma MinerStoredAdvances(cat: Catalog, s: State, id: Id, v: Miner)
    ensures Advances(cat, s, Bumped(s.(miners := s.miners[id := v]), MinerOf, id))
  {
    hide Inputs, Affected, Bumped, Advances;
    var t := s.(miners := s.miners[id := v]);
    forall r | r in s.rigs && !Affected(t.sheets, s.rigs[r], MinerOf, id)
      ensures Inputs(t, s.rigs[r]) == Inputs(s, s.rigs[r])
    {
      MinerUnusedInputs(s, id, v, s.rigs[r]);
    }
    BumpedAdvances(cat, s, t, MinerOf, id);
  }

  lemma SaveMinerAdvances(cat: Catalog, s: State, v: Miner, minted: Id, order: seq<Id>)
    requires SaveMiner(s, v, minted, true, order).Save?
    ensures Advances(cat, s, SaveMiner(s, v, minted, true, order).next)
  {
    hide Bumped, Advances;
    var twin := if v.catalogId == "" then None else CatalogTwin(s.miners, v, order);
    var named := if v.id == "" && twin.Some? then v.(id := twin.value) else v;
    var stored := if named.id == "" then named.(id := minted) else Inherit(named, s.miners[named.id]);
    MinerStoredAdvances(cat, s, stored.id, stored);
  }

  lemma SaveProfileAdvances(cat: Catalog, s: State, v: Profile, minted: Id)
    requires SaveProfile(s, v, minted, true).Save?
    ensures Advances(cat, s, SaveProfile(s, v, minted, true).next)
  {
    hide Inputs, Affected, Bumped, Advances, SettingsAccepted;
    var id := if v.id == "" then minted else v.id;
    var t := s.(profiles := s.profiles[id := v.(id := id)]);
    forall r | r in s.rigs && !Affected(t.sheets, s.rigs[r], ProfileOf, id)
      ensures Inputs(t, s.rigs[r]) == Inputs(s, s.rigs[r])
    {
      ProfileUnusedInputs(s, id, v.(id := id), s.rigs[r]);
    }
    BumpedAdvances(cat, s, t, ProfileOf, id);
  }

  lemma SheetStoredAdvances(cat: Catalog, s: State, id: Id, v: Sheet)
    ensures Advances(cat, s, Bumped(s.(sheets := s.sheets[id := v]), SheetOf, id))
  {
    hide Inputs, Affected, Bumped, Advances;
    var t := s.(sheets := s.sheets[id := v]);
    forall r | r in s.rigs && !Affected(t.sheets, s.rigs[r], SheetOf, id)
      ensures Inputs(t, s.rigs[r]) == Inputs(s, s.rigs[r])
    {
      SheetUnusedInputs(s, id, v, s.rigs[r]);
    }
    BumpedAdvances(cat, s, t, SheetOf, id);
  }

  lemma SaveSheetAdvances(cat: Catalog, s: State, v: Sheet, minted: Id)
    requires SaveSheet(cat, s, v, minted, true).Save?
    ensures Advances(cat, s, SaveSheet(cat, s, v, minted, true).next)
  {
    hide Bumped, Advances, Fold, FallbackAccepted, SecondaryAccepted;
    var coded := v.(algorithm := cat.forCoin(s.miners[v.minerId].catalogId, v.coin, v.algorithm));
    var coined := coded.(coin := if coded.coin == "" then s.wallets[coded.walletId].coin else coded.coin);
    var id := if coined.id == "" then minted else coined.id;
    SheetStoredAdvances(cat, s, id, coined.(id := id));
  }

  lemma AssignAdvances(cat: Catalog, s: State, rigId: Id, a: Assignment)
    requires AssignWorker(s, rigId, a).Save? && QuietRename(s, rigId, a)
    ensures Advances(cat, s, AssignWorker(s, rigId, a).next)
  {
    hide Accepts, MiningFrom, ShowsRigName, CloseOver;
    var t := AssignWorker(s, rigId, a).next;
    var was, now := s.rigs[rigId], t.rigs[rigId];
    forall sheet: Sheet ensures CloseOver(t, sheet) == CloseOver(s, sheet) {
      ClosureIgnoresRigs(s, t.rigs, sheet);
    }
    if !DesiredChanges(was.desired, a) {
      assert Inputs(t, now) == Inputs(s, was);
      if now.name != was.name {
        RenameLeaksIff(cat, s, rigId, a);
      }
    }
    forall r | r in s.rigs && r != rigId ensures Inputs(t, t.rigs[r]) == Inputs(s, s.rigs[r]) {
    }
  }

  lemma ClosureIgnoresRigs(s: State, rigs: map<Id, Rig>, sheet: Sheet)
    ensures CloseOver(s.(rigs := rigs), sheet) == CloseOver(s, sheet)
  {
  }

  lemma {:induction false} RedirectedBumps(rigs: map<Id, Rig>, rigIds: seq<Id>, sheetId: Id)
    ensures Redirected(rigs, rigIds, sheetId).Keys == rigs.Keys
    ensures forall r :: r in rigs ==> var b := Redirected(rigs, rigIds, sheetId)[r];
              rigs[r].desired.revision < b.desired.revision || b == rigs[r]
  {
    if rigIds != [] {
      RedirectedBumps(rigs, rigIds[..|rigIds| - 1], sheetId);
    }
  }

  /** An identifier no resource of s has. */
  predicate Unused(s: State, id: Id) {
    id != "" && id !in s.wallets && id !in s.pools && id !in s.miners && id !in s.sheets && id !in s.profiles
  }

  lemma WalletExtends(s: State, coin: string, address: string, order: seq<Id>, minted: Id)
    requires Unused(s, minted) && Extends(s, s)
    ensures var t := WithWallet(s, coin, address, order, minted).0;
            Extends(s, t) && t == s.(wallets := t.wallets) && t.wallets.Keys <= s.wallets.Keys + {minted}
  {
    hide FindWallet;
  }

  lemma PoolExtends(s: State, url: string, host: string, password: string, order: seq<Id>, minted: Id)
    requires Unused(s, minted) && Extends(s, s)
    ensures var t := WithPool(s, url, host, password, order, minted).0;
            Extends(s, t) && t == s.(pools := t.pools) && t.pools.Keys <= s.pools.Keys + {minted}
  {
    hide FindPool;
  }

  lemma MinerExtends(s: State, q: QuickInput, order: seq<Id>, minted: Id)
    requires Unused(s, minted) && Extends(s, s)
    ensures var t := WithMiner(s, q, order, minted).0;
            Extends(s, t) && t == s.(miners := t.miners) && t.miners.Keys <= s.miners.Keys + {minted}
  {
    hide FindEntry;
  }

  lemma ExtendsFurther(s: State, t: State, u: State)
    requires Extends(s, t) && Extends(t, u)
    ensures Extends(s, u) && Extends(u, u)
  {
  }

  lemma SheetExtends(s: State, t: State, id: Id, v: Sheet, rigs: map<Id, Rig>)
    requires Extends(s, t) && id != "" && id !in s.sheets
    ensures Extends(s, t.(sheets := t.sheets[id := v], rigs := rigs))
  {
  }

  lemma PickedExtends(s: State, q: QuickInput, ids: QuickFresh, orders: QuickOrder)
    requires Extends(s, s) && Unused(s, ids.wallet) && Unused(s, ids.pool) && Unused(s, ids.wallet2)
             && Unused(s, ids.pool2)
    requires Distinct([ids.wallet, ids.pool, ids.wallet2, ids.pool2])
    ensures var t := PickSecondary(PickPrimary(s, q, ids, orders), q, ids, orders).state;
            Extends(s, t) && t.rigs == s.rigs && t.sheets == s.sheets
  {
    hide WithWallet, WithPool, Extends;
    var d := [ids.wallet, ids.pool, ids.wallet2, ids.pool2];
    assert d[0] != d[1] && d[0] != d[2] && d[0] != d[3] && d[1] != d[2] && d[1] != d[3] && d[2] != d[3];
    WalletExtends(s, q.coin, q.walletAddress, orders.wallets, ids.wallet);
    var s1 := WithWallet(s, q.coin, q.walletAddress, orders.wallets, ids.wallet).0;
    ExtendsFurther(s, s, s1);
    PoolExtends(s1, q.poolUrl, q.poolHost, q.poolPassword, orders.pools, ids.pool);
    var s2 := WithPool(s1, q.poolUrl, q.poolHost, q.poolPassword, orders.pools, ids.pool).0;
    ExtendsFurther(s, s1, s2);
    if QuickSecondary(q) {
      WalletExtends(s2, q.secondaryCoin, q.secondaryWalletAddress, orders.wallets + [ids.wallet], ids.wallet2);
      var s3 := WithWallet(s2, q.secondaryCoin, q.secondaryWalletAddress, orders.wallets + [ids.wallet], ids.wallet2).0;
      ExtendsFurther(s, s2, s3);
      PoolExtends(s3, q.secondaryPoolUrl, q.secondaryPoolHost, q.secondaryPoolPassword, orders.pools + [ids.pool],
          ids.pool2);
      ExtendsFurther(s, s3,
          WithPool(s3, q.secondaryPoolUrl, q.secondaryPoolHost, q.secondaryPoolPassword, orders.pools + [ids.pool],
          ids.pool2).0);
    }
  }

  /** A quick setup only adds resources, whether it is stored or refused after its miner was. */
  lemma QuickGrows(s: State, q: QuickInput, checks: QuickChecks, ids: QuickFresh, orders: QuickOrder)
    requires Extends(s, s) && Unused(s, ids.miner) && Unused(s, ids.wallet) && Unused(s, ids.pool)
             && Unused(s, ids.wallet2) && Unused(s, ids.pool2) && Unused(s, ids.sheet)
    requires Distinct([ids.miner, ids.wallet, ids.pool, ids.wallet2, ids.pool2, ids.sheet])
    ensures match QuickSetup(s, q, checks, ids, orders)
            case Save(t) => Extends(s, t) && t.rigs == Redirected(s.rigs, q.rigIds, ids.sheet)
            case Reject(t, _) => Extends(s, t) && t == s.(miners := t.miners)
            case Done(_) => false
  {
    hide WithMiner, PickPrimary, PickSecondary, Redirected, Extends, QuickSheet;
    MinerExtends(s, q, orders.miners, ids.miner);
    var (s1, miner) := WithMiner(s, q, orders.miners, ids.miner);
    var d := [ids.miner, ids.wallet, ids.pool, ids.wallet2, ids.pool2, ids.sheet];
    assert d[0] != d[1] && d[0] != d[2] && d[0] != d[3] && d[0] != d[4];
    assert d[1..5] == [ids.wallet, ids.pool, ids.wallet2, ids.pool2];
    ExtendsFurther(s, s, s1);
    PickedExtends(s1, q, ids, orders);
    var p := PickSecondary(PickPrimary(s1, q, ids, orders), q, ids, orders);
    ExtendsFurther(s, s1, p.state);
    SheetExtends(s, p.state, ids.sheet, QuickSheet(q, ids.sheet, p.wallet, p.pool, miner.id, p.wallet2, p.pool2),
        Redirected(s.rigs, q.rigIds, ids.sheet));
  }

  lemma QuickReady(s: State, issued: set<Id>, drawn: set<Id>)
    requires Sound(s, issued) && drawn !! issued && "" !in drawn
    ensures Extends(s, s) && forall id :: id in drawn ==> Unused(s, id)
  {
    hide Sound;
    KeysKnown(s, issued);
  }

  lemma {:induction false} VisitedBumps(rigs: map<Id, Rig>, v: Schedule, key: Id, n: nat, tokens: Tokens)
    requires n <= |v.rigIds|
    ensures Visited(rigs, v, key, n, tokens).Keys == rigs.Keys
    ensures forall r :: r in rigs ==> var b := Visited(rigs, v, key, n, tokens)[r];
              rigs[r].desired.revision < b.desired.revision || SameDesire(rigs[r], b)
  {
    if n > 0 { VisitedBumps(rigs, v, key, n - 1, tokens); }
  }

  ghost predicate OnlySchedules(s: State, t: State) {
    && t == s.(rigs := t.rigs, schedules := t.schedules)
    && t.rigs.Keys == s.rigs.Keys
    && forall r :: r in s.rigs ==>
        s.rigs[r].desired.revision < t.rigs[r].desired.revision || SameDesire(s.rigs[r], t.rigs[r])
  }

  lemma OnlySchedulesChain(s: State, t: State, u: State)
    requires OnlySchedules(s, t) && OnlySchedules(t, u)
    ensures OnlySchedules(s, u)
  {
  }

  lemma RunOneBumps(s: State, key: Id, now: Moment, tokens: Tokens)
    ensures OnlySchedules(s, RunOne(s, key, now, tokens)) && OnlySchedules(s, s)
  {
    hide Due, Visited, Visit;
    if key in s.schedules && Due(s.schedules[key], now) {
      VisitedBumps(s.rigs, s.schedules[key], key, |s.schedules[key].rigIds|, tokens);
    }
  }

  lemma {:induction false} RunAllBumps(s: State, order: seq<Id>, now: Moment, tokens: Tokens)
    ensures OnlySchedules(s, RunAll(s, order, now, tokens))
  {
    hide OnlySchedules, RunOne;
    if order == [] {
      RunOneBumps(s, "", now, tokens);
    } else {
      var n := |order| - 1;
      RunAllBumps(s, order[..n], now, tokens);
      RunOneBumps(RunAll(s, order[..n], now, tokens), order[n], now, tokens);
      OnlySchedulesChain(s, RunAll(s, order[..n], now, tokens), RunAll(s, order, now, tokens));
    }
  }

  lemma {:induction false} EnqueuedAllKeeps(rigs: map<Id, Rig>, rigIds: seq<Id>, action: Action, profile: string,
      minted: seq<Id>)
    requires |minted| == |rigIds|
    ensures EnqueuedAll(rigs, rigIds, action, profile, minted).Keys == rigs.Keys
    ensures forall r :: r in rigs ==> SameDesire(rigs[r], EnqueuedAll(rigs, rigIds, action, profile, minted)[r])
  {
    if rigIds != [] { EnqueuedAllKeeps(rigs, rigIds[..|rigIds| - 1], action, profile, minted[..|rigIds| - 1]); }
  }

  /** Smart tune rewrites a profile that only its own rig uses, and that rig is bumped. */
  lemma TunedAdvances(cat: Catalog, s: State, rigId: Id, profileId: Id, p: Profile, done: Rig)
    requires rigId in s.rigs && !SharedProfile(s.rigs, profileId, rigId)
    requires s.rigs[rigId].desired.revision < done.desired.revision
    ensures Advances(cat, s, s.(profiles := s.profiles[profileId := p], rigs := s.rigs[rigId := done]))
  {
    hide Inputs, Advances;
    var t := s.(profiles := s.profiles[profileId := p], rigs := s.rigs[rigId := done]);
    forall r | r in s.rigs && r != rigId
      ensures Inputs(t, t.rigs[r]) == Inputs(s, s.rigs[r]) && SameDesire(s.rigs[r], t.rigs[r])
    {
      assert s.rigs[r].desired.profileId != profileId;
      ProfileUnusedInputs(s, profileId, p, s.rigs[r]);
      InputsIgnoreRigs(s.(profiles := t.profiles), t.rigs, s.rigs[r]);
    }
    KeptOrBumpedAdvances(cat, s, t);
  }

  lemma CompletedAdvances(cat: Catalog, s: State, rigId: Id, i: nat, result: Result, order: seq<Id>)
    requires rigId in s.rigs && i < |s.rigs[rigId].commands|
    requires forall k :: k in s.profiles ==> s.profiles[k].id == k
    ensures Advances(cat, s, Completed(s, rigId, i, result, order))
  {
    hide TunedProfile, Finished, TunedAccepted, Advances, SharedProfile;
    var c := s.rigs[rigId].commands[i];
    if result.error == "" && c.action.SmartTune? && TuneLands(s, rigId, c, result) {
      TunedKeepsId(s.profiles[c.profile], result.tuned, order, s.maxPowerW);
      var p := TunedProfile(s.profiles[c.profile], result.tuned, order, s.maxPowerW);
      TunedAdvances(cat, s, rigId, c.profile, p, BumpRig(Ended(s.rigs[rigId], i, "", result.output)));
    } else {
      FailedTuneAdvances(cat, s, rigId, Completed(s, rigId, i, result, order));
    }
  }

  lemma FinishAdvances(cat: Catalog, s: State, rigId: Id, commandId: Id, result: Result, order: seq<Id>)
    requires FinishCommand(s, rigId, commandId, result, order).Save?
    requires forall k :: k in s.profiles ==> s.profiles[k].id == k
    ensures Advances(cat, s, FinishCommand(s, rigId, commandId, result, order).next)
  {
    hide Completed, Advances, Find;
    CompletedAdvances(cat, s, rigId, Find(s.rigs[rigId].commands, commandId), result, order);
  }

  lemma FailedTuneAdvances(cat: Catalog, s: State, rigId: Id, t: State)
    requires rigId in s.rigs && rigId in t.rigs && t == s.(rigs := s.rigs[rigId := t.rigs[rigId]])
             && SameDesire(s.rigs[rigId], t.rigs[rigId])
    ensures Advances(cat, s, t)
  {
    hide Advances;
    RigsOnlyAdvances(cat, s, t);
  }

  lemma WithoutExtends(s: State, kind: Kind, id: Id, issued: set<Id>)
    requires Sound(s, issued)
    ensures Extends(Without(s, kind, id), s) && Without(s, kind, id).rigs == s.rigs
  {
    hide Sound;
    KeysKnown(s, issued);
  }

  lemma ReflexiveAdvances(cat: Catalog, s: State)
    ensures Advances(cat, s, s)
  {
  }

  predicate SavesResource(op: Op) {
    op.OpSaveWallet? || op.OpSavePool? || op.OpSaveMiner? || op.OpSaveSheet? || op.OpSaveProfile? || op.OpUpload?
  }

  lemma ResourceSaveAdvances(cat: Catalog, db: Db, op: Op)
    requires SoundDb(db) && Enabled(db, op) && SavesResource(op)
    requires EffectOf(cat, db.memory, op).Save?
    ensures Advances(cat, db.memory, EffectOf(cat, db.memory, op).next)
  {
    hide Sound, Advances, Bumped, SaveSheet, SaveMiner, SavePool, SaveProfile, SaveWallet, Distinct;
    var s := db.memory;
    if !op.OpUpload? { TextAccepted(cat, s, op); }
    match op
    case OpSaveWallet(v, id, ok) => SaveWalletAdvances(cat, s, v, id);
    case OpSavePool(v, id, ok) => SavePoolAdvances(cat, s, v, id, db.issued);
    case OpSaveMiner(v, id, ok, order) => SaveMinerAdvances(cat, s, v, id, order);
    case OpSaveSheet(v, id, ok) => SaveSheetAdvances(cat, s, v, id);
    case OpSaveProfile(v, id, ok) => SaveProfileAdvances(cat, s, v, id);
    case OpUpload(m, seen, binary, package, ok) =>
      MinerStoredAdvances(cat, s, m,
          s.miners[m].(binarySha256 := binary, packageSha256 := package, managedBinary := true));
  }

  /** Every state an operation hands to the disk is versioned against the memory it started from. */
  lemma SaveAdvances(cat: Catalog, db: Db, op: Op)
    requires SoundDb(db) && Enabled(db, op) && Quiet(cat, db.memory, op)
    requires EffectOf(cat, db.memory, op).Save?
    ensures Advances(cat, db.memory, EffectOf(cat, db.memory, op).next)
  {
    hide Sound, Advances, Redirected, QuickSetup, FinishCommand, UploadMiner, SaveSheet, SaveMiner, SavePool,
         SaveProfile, SaveWallet, Extends, AssignWorker, Distinct, AddCommand, AddCommands, NextCommand, Heartbeat,
         RunSchedules, SaveFarm, SaveSchedule, SetPowerPolicy, Enroll, DeleteRig, Injective, EnoughTokens,
         SheetRefers, RigRefers, ScheduleRefers;
    var s := db.memory;
    var t := EffectOf(cat, s, op).next;
    match op
    case OpSaveWallet(_, _, _) => ResourceSaveAdvances(cat, db, op);
    case OpSavePool(_, _, _) => ResourceSaveAdvances(cat, db, op);
    case OpSaveMiner(_, _, _, _) => ResourceSaveAdvances(cat, db, op);
    case OpSaveSheet(_, _, _) => ResourceSaveAdvances(cat, db, op);
    case OpSaveProfile(_, _, _) => ResourceSaveAdvances(cat, db, op);
    case OpUpload(_, _, _, _, _) => ResourceSaveAdvances(cat, db, op);
    case OpAssign(r, a) => AssignAdvances(cat, s, r, a);
    case OpDelete(k, id, ok) =>
      EffectSound(cat, db, op);
      WithoutExtends(s, k, id, db.issued);
      ShrunkAdvances(cat, s, t, db.issued + Drawn(op));
    case OpQuick(q, checks, ids, orders) =>
      QuickReady(s, db.issued, Drawn(op));
      QuickGrows(s, q, checks, ids, orders);
      RedirectedBumps(s.rigs, q.rigIds, ids.sheet);
      GrownAdvances(cat, s, t, db.issued);
    case OpFinish(r, c, result, order) => KeysKnown(s, db.issued); FinishAdvances(cat, s, r, c, result, order);
    case _ => if QueuesOnly(op) { QueueOperationAdvances(cat, s, op); } else { FleetOperationAdvances(cat, db, op); }
  }

  /** The operations that touch only queues and telemetry. */
  predicate QueuesOnly(op: Op) {
    op.OpHeartbeat? || op.OpAddCommand? || op.OpAddCommands? || op.OpNext?
  }

  lemma QueueOperationAdvances(cat: Catalog, s: State, op: Op)
    requires QueuesOnly(op) && EffectOf(cat, s, op).Save?
    ensures Advances(cat, s, EffectOf(cat, s, op).next)
  {
    hide Advances, EnqueuedAll, CommandAccepted, FirstLeasable;
    if op.OpAddCommands? { EnqueuedAllKeeps(s.rigs, op.rigIds, op.action.value, op.commandProfile, op.drawn); }
    RigsOnlyAdvances(cat, s, EffectOf(cat, s, op).next);
  }

  predicate FleetOnly(op: Op) {
    op.OpSaveFarm? || op.OpPower? || op.OpSaveSchedule? || op.OpRunSchedules? || op.OpEnroll? || op.OpDeleteRig?
        || op.OpServe? || op.OpRestart?
  }

  lemma FleetOperationAdvances(cat: Catalog, db: Db, op: Op)
    requires SoundDb(db) && Enabled(db, op) && FleetOnly(op) && EffectOf(cat, db.memory, op).Save?
    ensures Advances(cat, db.memory, EffectOf(cat, db.memory, op).next)
  {
    hide Sound, Advances, RunAll, AnyDue, Distinct, NameTaken, ScheduleActionAccepted, Injective, EnoughTokens;
    var s := db.memory;
    if op.OpRunSchedules? { RunAllBumps(s, op.order, op.moment, op.tokens); }
    if op.OpEnroll? { KeysKnown(s, db.issued); }
    RigsOnlyAdvances(cat, s, EffectOf(cat, s, op).next);
  }

  lemma TextAccepted(cat: Catalog, s: State, op: Op)
    requires EffectOf(cat, s, op).Save?
    requires op.OpSaveWallet? || op.OpSavePool? || op.OpSaveMiner? || op.OpSaveSheet? || op.OpSaveProfile?
    ensures op.textOk
  {
  }

  // ----- memory against disk -----

  /**
   Between operations memory and disk differ only in telemetry and in miners no sheet uses:
   a quick setup refused late, or a miner whose files could not be removed.
   */
  ghost predicate Coherent(m: State, d: State) {
    && m.rigs.Keys == d.rigs.Keys
    && (forall r :: r in m.rigs ==> m.rigs[r] == d.rigs[r].(telemetry := m.rigs[r].telemetry))
    && m.wallets == d.wallets && m.pools == d.pools && m.sheets == d.sheets && m.profiles == d.profiles
        && m.schedules == d.schedules
    && m.farms == d.farms && m.maxPowerW == d.maxPowerW
    && (forall k :: k in m.sheets ==> m.sheets[k].minerId in m.miners && m.sheets[k].minerId in d.miners
                                      && m.miners[m.sheets[k].minerId] == d.miners[m.sheets[k].minerId])
  }

  lemma CoherentAdvances(cat: Catalog, m: State, d: State)
    requires Coherent(m, d)
    ensures Advances(cat, m, d)
  {
    forall r | r in m.rigs ensures Inputs(m, m.rigs[r]) == Inputs(d, d.rigs[r]) && SameDesire(m.rigs[r], d.rigs[r]) {
    }
    hide Inputs, Coherent;
    KeptOrBumpedAdvances(cat, m, d);
  }

  lemma SoundCoherent(s: State, issued: set<Id>)
    requires Sound(s, issued)
    ensures Coherent(s, s)
  {
    hide Acyclic, Queues, NamesDiffer, SchedulesResolve, RigsResolve, Keyed;
    assert forall k :: k in s.sheets ==> SheetResolves(s, s.sheets[k]);
  }

  /** Apart from four operations, what is not saved is not in memory either. */
  lemma UnsavedUntouched(cat: Catalog, s: State, op: Op)
    requires !op.OpQuick? && !op.OpDelete? && !op.OpHeartbeat? && !op.OpServe?
    ensures match EffectOf(cat, s, op)
            case Reject(m, _) => m == s
            case Done(m) => m == s
            case Save(_) => true
  {
    hide RunAll, Bumped, CatalogTwin, Inherit, FallbackAccepted, SecondaryAccepted, SettingsAccepted, Accepts,
         CommandAccepted, TuneLands, TunedProfile, EnqueuedAll, Fold, Due;
  }

  lemma QuickStaysCoherent(m: State, d: State, t: State, issued: set<Id>)
    requires Sound(m, issued) && Coherent(m, d) && Extends(m, t) && t == m.(miners := t.miners)
    ensures Coherent(t, d)
  {
    hide Sound;
    SoundSheets(m, issued);
  }

  lemma DeletedMinerStaysCoherent(m: State, d: State, id: Id)
    requires Coherent(m, d) && !SheetRefers(m, Miners, id)
    ensures Coherent(Without(m, Miners, id), d)
  {
  }

  lemma HeartbeatStaysCoherent(m: State, d: State, r: Id, t: Telemetry)
    requires Coherent(m, d) && r in m.rigs
    ensures Coherent(m.(rigs := m.rigs[r := m.rigs[r].(telemetry := t)]), d)
  {
  }

  lemma UnsavedStaysCoherent(cat: Catalog, db: Db, op: Op)
    requires SoundDb(db) && Coherent(db.memory, db.disk) && Enabled(db, op) && Quiet(cat, db.memory, op)
    ensures match EffectOf(cat, db.memory, op)
            case Reject(m, _) => Coherent(m, db.disk) && Advances(cat, db.memory, m)
            case Done(m) => Coherent(m, db.disk) && Advances(cat, db.memory, m)
            case Save(_) => true
  {
    hide Sound, Advances, QuickSetup, AfterServing, Distinct, Coherent, QuietRead, SheetRefers, RigRefers,
         ScheduleRefers, Extends, Unused, Injective, EnoughTokens;
    var s := db.memory;
    ReflexiveAdvances(cat, s);
    match op
    case OpQuick(q, checks, ids, orders) =>
      QuickReady(s, db.issued, Drawn(op));
      QuickGrows(s, q, checks, ids, orders);
      var e := QuickSetup(s, q, checks, ids, orders);
      if e.Reject? {
        GrownAdvances(cat, s, e.memory, db.issued);
        QuickStaysCoherent(s, db.disk, e.memory, db.issued);
      }
    case OpDelete(k, id, ok) =>
      var e := Delete(s, k, id, ok);
      if e.Reject? && e.memory != s {
        EffectSound(cat, db, op);
        WithoutExtends(s, k, id, db.issued);
        ShrunkAdvances(cat, s, e.memory, db.issued + Drawn(op));
        DeletedMinerStaysCoherent(s, db.disk, id);
      }
    case OpHeartbeat(r, tel, ok) =>
      var e := Heartbeat(s, r, tel, ok);
      if e.Reject? && r in s.rigs {
        RigsOnlyAdvances(cat, s, e.memory);
        HeartbeatStaysCoherent(s, db.disk, r, tel);
      }
    case OpServe(r) => QuietReadInert(cat, s, r);
    case _ => UnsavedUntouched(cat, s, op);
  }

  /** One quiet operation, whatever becomes of its save, keeps coherence and advances every rig it leaves. */
  lemma StepAdvances(cat: Catalog, db: Db, op: Op, saved: bool)
    requires SoundDb(db) && Coherent(db.memory, db.disk) && Enabled(db, op) && Quiet(cat, db.memory, op)
    ensures var next := Step(cat, db, op, saved);
            SoundDb(next) && Coherent(next.memory, next.disk) && Advances(cat, db.memory, next.memory)
  {
    hide Sound, Coherent, Advances, EffectOf, Enabled, Quiet;
    StepSound(cat, db, op, saved);
    CoherentAdvances(cat, db.memory, db.disk);
    SoundCoherent(db.disk, db.issued);
    UnsavedStaysCoherent(cat, db, op);
    var e := EffectOf(cat, db.memory, op);
    if e.Save? {
      SaveAdvances(cat, db, op);
      EffectSound(cat, db, op);
      SoundCoherent(e.next, db.issued + Drawn(op));
    }
  }

  // ----- whole runs -----

  /** An identifier that was issued and is no rig, in memory and on disk, is never a rig again, whatever happens. */
  lemma {:induction false} GoneStaysGone(cat: Catalog, db: Db, events: seq<Event>, r: Id)
    requires Possible(cat, db, events) && r in db.issued && r !in db.memory.rigs && r !in db.disk.rigs
    ensures var last := Run(cat, db, events); r !in last.memory.rigs && r !in last.disk.rigs
    decreases |events|
  {
    hide EffectOf, Distinct, Injective, EnoughTokens, Drawn;
    if events != [] {
      StepMakesNoOldRig(cat, db, events[0].op, events[0].saved, r);
      GoneStaysGone(cat, Step(cat, db, events[0].op, events[0].saved), events[1..], r);
    }
  }

  lemma EffectMakesNoOldRig(cat: Catalog, s: State, op: Op)
    ensures RigsOf(EffectOf(cat, s, op)) <= s.rigs.Keys + Drawn(op)
  {
    hide SaveFarm, SaveWallet, SavePool, SaveMiner, SaveSheet, SaveProfile, AssignWorker, SetPowerPolicy, Delete,
         QuickSetup, SaveSchedule, RunSchedules, Heartbeat, UploadMiner, AddCommand, AddCommands, NextCommand,
         FinishCommand, RewritesStored, Fold;
  }

  lemma StepMakesNoOldRig(cat: Catalog, db: Db, op: Op, saved: bool, r: Id)
    requires Drawn(op) !! db.issued && r in db.issued && r !in db.memory.rigs && r !in db.disk.rigs
    ensures var next := Step(cat, db, op, saved); r in next.issued && r !in next.memory.rigs && r !in next.disk.rigs
  {
    hide EffectOf, Drawn;
    EffectMakesNoOldRig(cat, db.memory, op);
  }

  lemma CoherentKeys(m: State, d: State)
    requires Coherent(m, d)
    ensures m.rigs.Keys == d.rigs.Keys
  {
  }

  lemma {:induction false} RunCoherent(cat: Catalog, db: Db, events: seq<Event>)
    requires SoundDb(db) && Coherent(db.memory, db.disk) && Possible(cat, db, events) && QuietRun(cat, db, events)
    ensures var last := Run(cat, db, events); SoundDb(last) && Coherent(last.memory, last.disk)
    decreases |events|
  {
    hide Sound, Coherent, EffectOf, Enabled, Quiet, Advances;
    if events != [] {
      StepAdvances(cat, db, events[0].op, events[0].saved);
      RunCoherent(cat, Step(cat, db, events[0].op, events[0].saved), events[1..]);
    }
  }

  /** Along any quiet run a rig's revision never falls, and while it stands still so does its mining configuration. */
  lemma {:induction false} RunVersioned(cat: Catalog, db: Db, events: seq<Event>, r: Id)
    requires SoundDb(db) && Coherent(db.memory, db.disk) && Possible(cat, db, events) && QuietRun(cat, db, events)
    requires r in db.memory.rigs && r in Run(cat, db, events).memory.rigs
    ensures var last := Run(cat, db, events).memory;
            Versioned(cat, db.memory, db.memory.rigs[r], last, last.rigs[r])
    decreases |events|
  {
    hide Sound, Coherent, EffectOf, Enabled, Quiet, MiningOf;
    if events != [] {
      var next := Step(cat, db, events[0].op, events[0].saved);
      StepAdvances(cat, db, events[0].op, events[0].saved);
      if r in next.memory.rigs {
        RunVersioned(cat, next, events[1..], r);
      } else {
        RigIssued(db, r);
        CoherentKeys(next.memory, next.disk);
        GoneStaysGone(cat, next, events[1..], r);
      }
    }
  }

  lemma RigIssued(db: Db, r: Id)
    requires SoundDb(db) && r in db.memory.rigs
    ensures r in db.issued
  {
    KeysKnown(db.memory, db.issued);
  }

  ghost predicate SameServed(a: Configuration, b: Configuration, p: Profile, seen: seq<Gpu>, later: seq<Gpu>) {
    && a.primary == b.primary && a.fallback == b.fallback
    && a.failoverAfter == b.failoverAfter && a.returnAfter == b.returnAfter
    && NormalWatchdog(a.watchdog) == NormalWatchdog(b.watchdog) && NormalAutofan(a.autofan) == NormalAutofan(b.autofan)
    && a.overclock == PowerPolicy.Clamped(p, a.maxPowerW, seen)
        && b.overclock == PowerPolicy.Clamped(p, b.maxPowerW, later)
  }

  /** A sheet that rewrites nothing is shown as it is resolved. */
  lemma QuietShown(cat: Catalog, s: State, sheet: Sheet, rigName: string)
    requires QuietSheet(cat, s, sheet)
    ensures Shown(cat, CloseOver(s, sheet), rigName, s.miners) == Resolve(cat, CloseOver(s, sheet), rigName)
  {
    hide NeedsLogin, Render, NoPair, DropWorkers, PoolEndpoint;
    if sheet.minerId in s.miners {
      DropWorkersInert(s.miners[sheet.minerId].defaultArguments);
    }
  }

  lemma QuietServe(cat: Catalog, s: State, r: Id)
    requires QuietRead(cat, s, r) && Serve(cat, s, r).Served? && "" !in s.sheets
    ensures var c := Serve(cat, s, r).configuration;
            var m := MiningOf(cat, s, s.rigs[r]);
            && c.revision == s.rigs[r].desired.revision && c.maxPowerW == s.maxPowerW
            && c.primary == m.primary && c.fallback == m.fallback && c.failoverAfter == m.failoverAfter
                && c.returnAfter == m.returnAfter
            && NormalWatchdog(c.watchdog) == m.watchdog && NormalAutofan(c.autofan) == m.autofan
            && c.overclock == PowerPolicy.Clamped(m.overclock, s.maxPowerW, s.rigs[r].telemetry.gpus)
  {
    hide AfterServing, AfterResolving, QuietSheet, Shown, Resolve, Starts, PoolEndpoint;
    QuietReadInert(cat, s, r);
    var rig := s.rigs[r];
    if rig.desired.sheetId in s.sheets {
      var sheet := s.sheets[rig.desired.sheetId];
      ResolvingInert(cat, s, sheet);
      QuietShown(cat, s, sheet, rig.name);
      if sheet.fallbackId in s.sheets {
        QuietShown(cat, s, s.sheets[sheet.fallbackId], rig.name);
      }
    }
  }

  /**
   Two answers to the same rig that show the same revision agree on everything that is
   mined: both workloads, the delays, watchdog and autofan where enabled, and the profile
   before the power clamp. Any operations, failed saves and restarts may lie between them.
   */
  lemma RevisionIsAVersion(cat: Catalog, before: seq<Event>, between: seq<Event>, r: Id)
    requires Possible(cat, NewStore(), before) && QuietRun(cat, NewStore(), before)
    requires var db := Run(cat, NewStore(), before);
             && Possible(cat, db, between) && QuietRun(cat, db, between)
             && r in db.memory.rigs && r in Run(cat, db, between).memory.rigs
             && QuietRead(cat, db.memory, r) && QuietRead(cat, Run(cat, db, between).memory, r)
             && Serve(cat, db.memory, r).Served? && Serve(cat, Run(cat, db, between).memory, r).Served?
    ensures var a := Run(cat, NewStore(), before).memory;
            var b := Run(cat, Run(cat, NewStore(), before), between).memory;
            var first, second := Serve(cat, a, r), Serve(cat, b, r);
            && first.configuration.revision <= second.configuration.revision
            && (first.configuration.revision == second.configuration.revision ==>
                  SameServed(first.configuration, second.configuration, MiningOf(cat, a, a.rigs[r]).overclock,
                      a.rigs[r].telemetry.gpus, b.rigs[r].telemetry.gpus))
  {
    hide Sound, Coherent, Serve, MiningOf, QuietRead, Run, Possible, QuietRun;
    NewStoreSound();
    SoundCoherent(NewStore().memory, NewStore().issued);
    RunCoherent(cat, NewStore(), before);
    var db := Run(cat, NewStore(), before);
    RunCoherent(cat, db, between);
    var last := Run(cat, db, between);
    KeysKnown(db.memory, db.issued);
    KeysKnown(last.memory, last.issued);
    RunVersioned(cat, db, between, r);
    QuietServe(cat, db.memory, r);
    QuietServe(cat, last.memory, r);
  }

  // ----- the read leak, concretely -----

  const LEAK_MINER := NO_MINER.(id := "m", defaultArguments := [PAIR])
  const LEAK_PLAIN := Sheet("y", "y", "CPU", "C", "", "w", "p", "m", "", "", "", "", "", "", "", "", "", [], "", 0, 0)
  const LEAK_SHEET := LEAK_PLAIN.(id := "x", walletTemplate := "{WALLET}")
  const LEAK_STATE := EMPTY.(
    wallets := map["w" := Wallet("w", "w", "C", "address")],
    pools := map["p" := Pool("p", "p", "stratum+tcp://pool:1", "x")],
    miners := map["m" := LEAK_MINER],
    sheets := map["x" := LEAK_SHEET, "y" := LEAK_PLAIN],
    rigs := map["a" := FRESH_RIG.(id := "a", name := "a", desired := FRESH_RIG.desired.(sheetId := "x")),
                "b" := FRESH_RIG.(id := "b", name := "b", desired := FRESH_RIG.desired.(sheetId := "y"))])

  /** Nothing is wrong with this store. */
  lemma LeakStateSound()
    ensures Sound(LEAK_STATE, {"a", "b", "m", "p", "w", "x", "y"})
  {
    hide Keyed, SheetsResolve, RigsResolve, SchedulesResolve, Acyclic, Queues, NamesDiffer;
    LeakStateKeyed();
    LeakStateResolves();
    LeakStateAcyclic();
    LeakStateRigs();
  }

  lemma LeakStateKeyed()
    ensures Keyed(LEAK_STATE, {"a", "b", "m", "p", "w", "x", "y"})
  {
  }

  lemma LeakStateResolves()
    ensures SheetsResolve(LEAK_STATE) && RigsResolve(LEAK_STATE) && SchedulesResolve(LEAK_STATE)
  {
  }

  lemma LeakStateAcyclic()
    ensures Acyclic(LEAK_STATE.sheets)
  {
    var rank: map<Id, nat> := map["x" := 0, "y" := 0];
    assert Ranked(LEAK_STATE.sheets, rank);
  }

  lemma LeakStateRigs()
    ensures NamesDiffer(LEAK_STATE.rigs) && Queues(LEAK_STATE.rigs, {"a", "b", "m", "p", "w", "x", "y"})
  {
    assert LEAK_STATE.rigs.Keys == {"a", "b"};
    assert LEAK_STATE.rigs["a"].commands == [] && LEAK_STATE.rigs["b"].commands == [];
    assert Fold("a")[0] == 'a' && Fold("b")[0] == 'b';
  }

  lemma LeakRewrites(cat: Catalog)
    ensures AfterServing(cat, LEAK_STATE, "a")
         == LEAK_STATE.(miners := map["m" := LEAK_MINER.(defaultArguments := DropWorkers([PAIR]))])
    ensures DropWorkers([PAIR]) != [PAIR]
  {
    hide DropWorker, HasArgument, SrbArguments;
    DropWorkerInert(PAIR);
    assert DropWorkers([PAIR])[0] != PAIR;
    var c := CloseOver(LEAK_STATE, LEAK_SHEET);
    assert c.miner == LEAK_MINER && c.sheet == LEAK_SHEET;
    assert RewritesStored(cat, c);
    assert LEAK_STATE.miners["m" := LEAK_MINER.(defaultArguments := DropWorkers([PAIR]))] == map["m" :=
        LEAK_MINER.(defaultArguments := DropWorkers([PAIR]))];
  }

  lemma PlainArguments(cat: Catalog, s: State)
    requires s.sheets == LEAK_STATE.sheets && s.rigs == LEAK_STATE.rigs && "m" in s.miners
             && s.miners["m"].catalogId == ""
    ensures MiningOf(cat, s, s.rigs["b"]).primary.Some?
    ensures MiningOf(cat, s, s.rigs["b"]).primary.value.miner.defaultArguments == s.miners["m"].defaultArguments
  {
    hide Render, HasArgument, DropWorkers;
  }

  /** Serving a rig whose sheet has a wallet template changes, at the same revision, what another rig mines under. */
  lemma ReadingChangesAnotherRig(cat: Catalog)
    ensures Sound(LEAK_STATE, {"a", "b", "m", "p", "w", "x", "y"})
    ensures var later := AfterServing(cat, LEAK_STATE, "a");
            && later.rigs == LEAK_STATE.rigs
            && MiningOf(cat, later, later.rigs["b"]) != MiningOf(cat, LEAK_STATE, LEAK_STATE.rigs["b"])
  {
    hide AfterServing, MiningOf, DropWorkers, Sound;
    LeakStateSound();
    LeakRewrites(cat);
    PlainArguments(cat, LEAK_STATE);
    PlainArguments(cat, AfterServing(cat, LEAK_STATE, "a"));
  }
}
