/**
 Publishing a miner package on the controller: the archive is put in place, the miner's
 definition gets its digests, and the document is saved, as one transaction over two stores
 that can each fail.
 */
module MinerPackages {
  import opened Wrappers
  import opened Faults
  import opened StoreState
  import opened StoreEffects
  import opened StoreRuns
  import opened BinaryUpdate
  import opened ControllerStore

  function Archive(minerId: Id): Path { minerId + ".tar.gz" }

  /** A plain binary, the other package format. */
  function Binary(minerId: Id): Path { minerId + ".bin" }

  /** The names publishing a bundle may touch. */
  function Touched(minerId: Id): set<Path> { Names(Archive(minerId)) + {Binary(minerId)} }

  /** Every recorded package is there, with the recorded digest. */
  ghost predicate Published(miners: map<Id, Miner>, files: Files, digest: Content -> string) {
    forall m :: m in miners && miners[m].packageSha256 != "" ==>
      Archive(m) in files && digest(files[Archive(m)]) == miners[m].packageSha256
  }

  lemma EndsDiffer(a: string, b: string)
    ensures a + ".tar.gz" != b + ".previous" && a + ".tar.gz" != b + ".next" && a + ".tar.gz" != b + ".bin"
  {
    assert (b + ".bin")[|b + ".bin"| - 1] == 'n';
    assert (a + ".tar.gz")[|a + ".tar.gz"| - 1] == 'z';
    assert (b + ".previous")[|b + ".previous"| - 1] == 's';
    assert (b + ".next")[|b + ".next"| - 1] == 't';
  }

  lemma ArchivesDiffer(a: Id, b: Id)
    requires a != b
    ensures Archive(a) !in Touched(b)
  {
    EndsDiffer(a, b);
    EndsDiffer(a, Archive(b));
    assert Archive(a)[..|a|] == a && Archive(b)[..|b|] == b;
  }

  /** Work on one miner's names leaves the packages of the others as they are. */
  lemma OthersPublished(miners: map<Id, Miner>, next: map<Id, Miner>, files: Files, after: Files,
      digest: Content -> string, minerId: Id)
    requires Published(miners, files, digest) && SameOutside(after, files, Touched(minerId))
    requires next.Keys <= miners.Keys && forall m :: m in next && m != minerId ==>
             next[m].packageSha256 == miners[m].packageSha256
    requires minerId in next && next[minerId].packageSha256 != "" ==>
             Archive(minerId) in after && digest(after[Archive(minerId)]) == next[minerId].packageSha256
    ensures Published(next, after, digest)
  {
    forall m | m in next && next[m].packageSha256 != ""
      ensures Archive(m) in after && digest(after[Archive(m)]) == next[m].packageSha256
    {
      if m != minerId { ArchivesDiffer(m, minerId); }
    }
  }

  /**
   saveMinerBundle, after the archive was uploaded to a temporary file and its entry point
   verified. After a failed save the old archive is back if the last operation, which puts it
   back, did not fail.
   */
  method SaveMinerBundle(store: Store, fs: FileSystem, minerId: Id, seen: Miner, payload: Content, entrySha256: string,
      diskOk: bool)
    returns (outcome: Outcome)
    modifies store, fs
    ensures store.View() == Settled(old(store.View()),
            UploadMiner(old(store.state), minerId, seen, entrySha256, fs.digest(payload), !outcome.Refused?), diskOk,
            {})
    ensures outcome.Accepted? ==>
              && Archive(minerId) in fs.files && fs.files[Archive(minerId)] == payload
              && minerId in store.lastSaved.miners
                  && store.lastSaved.miners[minerId].packageSha256 == fs.digest(payload)
              && store.lastSaved.miners[minerId].binarySha256 == entrySha256
    ensures outcome.Accepted? && Quiet(fs.faults, old(fs.operations), fs.operations) ==>
              Binary(minerId) !in fs.files && Backup(Archive(minerId)) !in fs.files
    ensures outcome.NotSaved? ==> store.lastSaved == old(store.lastSaved) && store.state == store.lastSaved
    ensures outcome.NotSaved? ==> fs.operations > old(fs.operations)
    ensures old(minerId in store.state.miners
            && store.state.miners[minerId] == seen) && Quiet(fs.faults, old(fs.operations), fs.operations) ==>
            !outcome.Refused?
    ensures outcome.NotSaved? && !fs.faults(fs.operations - 1) ==> SameAt(fs.files, old(fs.files), Archive(minerId))
    ensures outcome.Refused? && !SameAt(fs.files, old(fs.files), Archive(minerId)) ==>
              fs.operations >= old(fs.operations) + 2 && fs.faults(fs.operations - 1) && fs.faults(fs.operations - 2)
    ensures SameOutside(fs.files, old(fs.files), Touched(minerId))
    ensures fs.safe
    ensures outcome.Accepted? || (outcome.NotSaved? && !fs.faults(fs.operations - 1)) ==>
              old(Published(store.state.miners, fs.files, fs.digest)
                  && Published(store.lastSaved.miners, fs.files, fs.digest)) ==>
                Published(store.lastSaved.miners, fs.files, fs.digest)
  {
    hide UploadMiner, Recoverable, Published, SameOutside, SameAt, Quiet;
    UploadRecords(store.state, minerId, seen, entrySha256, fs.digest(payload));
    NamesDiffer(Archive(minerId));
    EndsDiffer(minerId, minerId);
    fs.Guard({Archive(minerId)});
    var known := minerId in store.state.miners;
    var update := PutInPlace(fs, minerId, payload, known && store.state.miners[minerId] == seen);
    OutsideMore(old(fs.files), fs.files, minerId);
    if !known { return Refused(NotFound); }
    if update.None? { return Refused(Invalid); }
    ghost var placed, then_ := fs.files, fs.operations;
    outcome := store.FinishUpload(minerId, seen, entrySha256, fs.digest(payload), true, diskOk);
    if outcome.NotSaved? {
      PutBack(fs, update.value, old(fs.files));
      QuietBoth(fs.faults, old(fs.operations), then_, fs.operations);
      OutsideBoth(old(fs.files), placed, fs.files, minerId);
      SamePublished(store.lastSaved.miners, old(fs.files), fs.files, fs.digest, minerId);
      return;
    }
    fs.Release();
    CleanUp(fs, minerId, update.value);
    QuietBoth(fs.faults, old(fs.operations), then_, fs.operations);
    OutsideBoth(old(fs.files), placed, fs.files, minerId);
    if old(Published(store.state.miners, fs.files, fs.digest)) {
      OthersPublished(old(store.state).miners, store.lastSaved.miners, old(fs.files), fs.files, fs.digest, minerId);
    }
  }

  lemma OutsideMore(a: Files, b: Files, minerId: Id)
    requires SameOutside(b, a, Names(Archive(minerId)))
    ensures SameOutside(b, a, Touched(minerId))
  {
  }

  lemma OutsideBoth(a: Files, b: Files, c: Files, minerId: Id)
    requires SameOutside(b, a, Names(Archive(minerId)))
    requires SameOutside(c, b, Names(Archive(minerId)))
             || SameOutside(c, b, {Backup(Archive(minerId)), Binary(minerId)})
    ensures SameOutside(c, a, Touched(minerId))
  {
  }

  /** The upload, and, unless the definition changed meanwhile, its archive in place of the old one. */
  method PutInPlace(fs: FileSystem, minerId: Id, payload: Content, unchanged_: bool) returns (update: Option<Update>)
    requires fs.Safe() && Clear(Archive(minerId), fs.guarded)
    requires Archive(minerId) in fs.guarded ==>
             Archive(minerId) in fs.files && fs.files[Archive(minerId)] == fs.guarded[Archive(minerId)]
    modifies fs`files, fs`operations, fs`safe
    ensures fs.Safe() && fs.operations >= old(fs.operations)
    ensures SameOutside(fs.files, old(fs.files), Names(Archive(minerId)))
    ensures unchanged_ && Quiet(fs.faults, old(fs.operations), fs.operations) ==> update.Some?
    ensures update.Some? ==>
              && unchanged_ && update.value.destination == Archive(minerId) && !update.value.directory
              && InPlace(update.value, fs.files, old(fs.files)) && fs.files[Archive(minerId)] == payload
              && (Archive(minerId) !in old(fs.files) ==> Backup(Archive(minerId)) !in fs.files)
    ensures update.None? && !SameAt(fs.files, old(fs.files), Archive(minerId)) ==>
              fs.operations >= old(fs.operations) + 2 && fs.faults(fs.operations - 1) && fs.faults(fs.operations - 2)
  {
    NamesDiffer(Archive(minerId));
    var stored := Upload(fs, minerId, payload);
    if !stored || !unchanged_ { return None; }
    update := fs.Replace(Archive(minerId), false);
  }

  /** The backup and the plain binary removed; errors are ignored. */
  method CleanUp(fs: FileSystem, minerId: Id, u: Update)
    requires u.destination == Archive(minerId) && Archive(minerId) in fs.files && fs.guarded == map[]
    requires !u.hadPrevious ==> Backup(Archive(minerId)) !in fs.files
    modifies fs`files, fs`operations, fs`safe
    ensures fs.safe == old(fs.safe) && fs.operations >= old(fs.operations)
    ensures SameOutside(fs.files, old(fs.files), {Backup(Archive(minerId)), Binary(minerId)})
    ensures Quiet(fs.faults, old(fs.operations), fs.operations) ==>
            Binary(minerId) !in fs.files && Backup(Archive(minerId)) !in fs.files
    ensures Archive(minerId) in fs.files && fs.files[Archive(minerId)] == old(fs.files)[Archive(minerId)]
  {
    NamesDiffer(Archive(minerId));
    EndsDiffer(minerId, minerId);
    var _ := fs.Commit(u);
    var _ := fs.Remove(Binary(minerId), false);
  }

  lemma SamePublished(miners: map<Id, Miner>, files: Files, after: Files, digest: Content -> string, minerId: Id)
    requires SameOutside(after, files, Touched(minerId))
    ensures SameAt(after, files, Archive(minerId)) && Published(miners, files, digest) ==>
            Published(miners, after, digest)
  {
    if SameAt(after, files, Archive(minerId)) && Published(miners, files, digest) {
      OthersPublished(miners, miners, files, after, digest, minerId);
    }
  }

  /** The old archive after a failed save; errors are ignored. The last operation decides whether it is back. */
  method PutBack(fs: FileSystem, u: Update, ghost was: Files)
    requires InPlace(u, fs.files, was) && !u.directory
    requires fs.Safe() && Clear(u.destination, fs.guarded)
             && (u.destination in fs.guarded ==> u.hadPrevious && fs.guarded[u.destination] == was[u.destination])
    modifies fs`files, fs`operations, fs`safe
    ensures fs.Safe() && SameOutside(fs.files, old(fs.files), Names(u.destination))
    ensures fs.operations == old(fs.operations) + Steps(Some(u))
    ensures !fs.faults(fs.operations - 1) ==> SameAt(fs.files, was, u.destination)
  {
    NamesDiffer(u.destination);
    var _ := fs.Remove(u.destination, false);
    if u.hadPrevious {
      var _ := fs.Rename(Backup(u.destination), u.destination);
    }
  }

  /** What an upload records, and that it records nothing when the definition is not the one that was seen. */
  lemma UploadRecords(s: State, minerId: Id, seen: Miner, binary: string, package: string)
    ensures minerId in s.miners && s.miners[minerId] == seen ==>
              var e := UploadMiner(s, minerId, seen, binary, package, true);
              e.Save? && minerId in e.next.miners && e.next.miners[minerId].packageSha256 == package
                  && e.next.miners[minerId].binarySha256 == binary
              && e.next.miners.Keys == s.miners.Keys && forall m :: m in s.miners && m != minerId ==>
                  e.next.miners[m] == s.miners[m]
    ensures UploadMiner(s, minerId, seen, binary, package, false).Reject?
            && UploadMiner(s, minerId, seen, binary, package, false).memory == s
  {
    hide Bumped;
    BumpingKeepsMiners(s.(miners :=
        s.miners[minerId := seen.(binarySha256 := binary, packageSha256 := package, managedBinary := true)]), minerId);
  }

  lemma BumpingKeepsMiners(s: State, id: Id)
    ensures Bumped(s, MinerOf, id).miners == s.miners
  {
  }

  /** The temporary file next to the archive. */
  method Upload(fs: FileSystem, minerId: Id, payload: Content) returns (ok: bool)
    requires fs.Safe() && Clear(Archive(minerId), fs.guarded)
    modifies fs`files, fs`operations, fs`safe
    ensures fs.Safe() && SameOutside(fs.files, old(fs.files), {Staged(Archive(minerId))})
    ensures fs.operations == old(fs.operations) + 1 && (ok <==> !fs.faults(old(fs.operations)))
    ensures ok ==> Staged(Archive(minerId)) in fs.files && fs.files[Staged(Archive(minerId))] == payload
  {
    NamesDiffer(Archive(minerId));
    ok := !fs.faults(fs.operations);
    fs.operations := fs.operations + 1;
    if ok {
      fs.files := fs.files[Staged(Archive(minerId)) := payload];
      fs.safe := fs.safe && Recoverable(fs.files, fs.guarded);
    }
  }
}
