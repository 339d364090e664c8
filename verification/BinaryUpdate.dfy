/**
 Replacing miner binaries on the rig so that a failed start can be undone: the old binary is
 renamed away, the new one renamed into place, and the backup kept until the new one runs.

 File operations are numbered, and any of them may fail; so are downloads, and any of them may
 bring nothing or something else. A path holds a file, or a whole directory as one value.
 */
module BinaryUpdate {
  import opened Wrappers
  import opened Faults

  type Path = string
  type Content = seq<bv8>
  type Files = map<Path, Content>

  function Backup(p: Path): Path { p + ".previous" }
  function Staged(p: Path): Path { p + ".next" }

  /** Every name an update of p touches. */
  function Names(p: Path): set<Path> { {p, Backup(p), Staged(p)} }

  lemma NamesDiffer(p: Path)
    ensures p != Backup(p) && p != Staged(p) && Backup(p) != Staged(p)
  {
    assert |Backup(p)| == |p| + 9 && |Staged(p)| == |p| + 5;
  }

  datatype Update = Update(destination: Path, hadPrevious: bool, directory: bool)

  ghost predicate SameOutside(a: Files, b: Files, names: set<Path>) {
    forall q :: q !in names ==> (q in a <==> q in b) && (q in a ==> a[q] == b[q])
  }

  predicate SameAt(a: Files, b: Files, p: Path) {
    (p in a <==> p in b) && (p in a ==> a[p] == b[p])
  }

  /** The number of operations that undo an update when none of them fails. */
  function Steps(u: Option<Update>): nat {
    if u.None? then 0 else if u.value.hadPrevious then 2 else 1
  }

  /** An update is in place: new content at the path, the old one in the backup. */
  predicate InPlace(u: Update, files: Files, was: Files) {
    && u.destination in files
    && u.hadPrevious == (u.destination in was)
    && (u.hadPrevious ==> Backup(u.destination) in files && files[Backup(u.destination)] == was[u.destination])
  }

  /** Each guarded content is where it was, or in its backup. */
  predicate Recoverable(files: Files, guarded: Files) {
    forall p :: p in guarded ==>
      (p in files && files[p] == guarded[p]) || (Backup(p) in files && files[Backup(p)] == guarded[p])
  }

  /** Work on p leaves the names of the other guarded paths alone. */
  ghost predicate Clear(p: Path, guarded: Files) {
    forall q :: q in guarded && q != p ==> Names(q) !! Names(p)
  }

  class FileSystem {
    const digest: Content -> string
    /** Which operations fail. */
    const faults: nat -> bool
    /** What each request for a path's package brings. */
    const downloads: (Path, nat) -> Option<Content>
    var files: Files
    var operations: nat
    var requests: nat
    /** Contents that must not get lost, and whether every state so far kept them within reach. */
    ghost var guarded: Files
    ghost var safe: bool

    ghost predicate Safe()
      reads this
    {
      safe && Recoverable(files, guarded)
    }

    constructor (digest: Content -> string, faults: nat -> bool, downloads: (Path, nat) -> Option<Content>,
        files: Files)
      ensures this.digest == digest && this.faults == faults && this.downloads == downloads && this.files == files
              && guarded == map[] && Safe()
    {
      this.digest, this.faults, this.downloads := digest, faults, downloads;
      operations, requests := 0, 0;
      this.files := files;
      guarded := map[];
      safe := true;
    }

    /** From here on, in every state, what is at these paths now must be there or in the backup. */
    ghost method Guard(paths: set<Path>)
      modifies `guarded, `safe
      ensures Safe() && guarded == map p | p in paths && p in files :: files[p]
    {
      guarded := map p | p in paths && p in files :: files[p];
      safe := true;
    }

    /** Nothing needs keeping any more; what was observed stays. */
    ghost method Release()
      modifies `guarded
      ensures guarded == map[] && (safe ==> Safe())
    {
      guarded := map[];
    }

    method Rename(from: Path, to: Path) returns (ok: bool)
      requires from != to
      modifies `files, `operations, `safe
      ensures ok <==> from in old(files) && !faults(old(operations))
      ensures operations == old(operations) + 1
      ensures files == if ok then (old(files) - {from})[to := old(files)[from]] else old(files)
      ensures safe == (old(safe) && Recoverable(files, guarded))
    {
      ok := !faults(operations) && from in files;
      operations := operations + 1;
      if ok {
        files := (files - {from})[to := files[from]];
      }
      safe := safe && Recoverable(files, guarded);
    }

    /** Removing what is not there succeeds. A directory that cannot be removed may be left in pieces. */
    method Remove(p: Path, directory: bool) returns (ok: bool)
      modifies `files, `operations, `safe
      ensures operations == old(operations) + (if p in old(files) then 1 else 0)
      ensures ok <==> p !in old(files) || !faults(old(operations))
      ensures ok ==> files == old(files) - {p}
      ensures !ok ==> SameOutside(files, old(files), {p}) && (!directory ==> files == old(files))
      ensures safe == (old(safe) && Recoverable(files, guarded))
    {
      if p !in files {
        safe := safe && Recoverable(files, guarded);
        assert files == files - {p};
        return true;
      }
      ok := !faults(operations);
      operations := operations + 1;
      if ok {
        files := files - {p};
      } else if directory {
        var pieces: Content := *;
        files := files[p := pieces];
      }
      safe := safe && Recoverable(files, guarded);
    }

    /** The old backup removed, and what is at the path renamed to be the new one. */
    method SetAside(destination: Path, directory: bool) returns (ok: bool, hadPrevious: bool)
      requires Staged(destination) in files
      requires Safe() && Clear(destination, guarded)
               && (destination in guarded ==> destination in files && files[destination] == guarded[destination])
      modifies `files, `operations, `safe
      ensures Safe() && operations >= old(operations)
              && SameOutside(files, old(files), {destination, Backup(destination)})
      ensures ok <==> Quiet(faults, old(operations), operations)
      ensures !ok ==> SameAt(files, old(files), destination)
      ensures hadPrevious == (destination in old(files))
      ensures ok ==> destination !in files
      ensures ok && hadPrevious ==>
              Backup(destination) in files && files[Backup(destination)] == old(files)[destination]
      ensures ok && !hadPrevious ==> Backup(destination) !in files
    {
      NamesDiffer(destination);
      hadPrevious := destination in files;
      ok := Remove(Backup(destination), directory);
      if ok && hadPrevious {
        ok := Rename(destination, Backup(destination));
      }
    }

    /**
     replaceManagedMinerPath. It fails only with one of its operations, and loses the path's content
     only if the rename that puts it back fails as well.
     */
    method Replace(destination: Path, directory: bool) returns (update: Option<Update>)
      requires Staged(destination) in files
      requires Safe() && Clear(destination, guarded)
               && (destination in guarded ==> destination in files && files[destination] == guarded[destination])
      modifies `files, `operations, `safe
      ensures Safe() && operations >= old(operations)
      ensures SameOutside(files, old(files), Names(destination))
      ensures update.Some? <==> Quiet(faults, old(operations), operations)
      ensures update.None? && !SameAt(files, old(files), destination) ==>
              operations >= old(operations) + 2 && faults(operations - 1) && faults(operations - 2)
      ensures update.Some? ==>
                && update.value.destination == destination && update.value.directory == directory
                && InPlace(update.value, files, old(files))
                && files[destination] == old(files)[Staged(destination)]
                && (destination !in old(files) ==> Backup(destination) !in files)
      ensures update.None? && destination !in old(files) ==> destination !in files
    {
      hide Quiet;
      NamesDiffer(destination);
      var moved, hadPrevious := SetAside(destination, directory);
      if !moved { return None; }
      OneMore(faults, old(operations), operations);
      var installed := Rename(Staged(destination), destination);
      if !installed {
        QuietBoth(faults, old(operations), operations, operations + 1);
        if hadPrevious {
          var restored := Rename(Backup(destination), destination);
        }
        return None;
      }
      update := Some(Update(destination, hadPrevious, directory));
    }

    /** minerBinaryUpdate.rollback. It succeeds if and only if none of its operations fails. */
    method Rollback(u: Update, ghost was: Files) returns (ok: bool)
      requires InPlace(u, files, was)
      requires Safe() && Clear(u.destination, guarded)
               && (u.destination in guarded ==> u.hadPrevious && guarded[u.destination] == was[u.destination])
      modifies `files, `operations, `safe
      ensures Safe() && old(operations) <= operations <= old(operations) + Steps(Some(u))
      ensures SameOutside(files, old(files), Names(u.destination))
      ensures ok <==> Quiet(faults, old(operations), operations)
      ensures ok ==> SameAt(files, was, u.destination) && (u.hadPrevious ==> Backup(u.destination) !in files)
    {
      NamesDiffer(u.destination);
      ok := Remove(u.destination, u.directory);
      if ok && u.hadPrevious {
        ok := Rename(Backup(u.destination), u.destination);
      }
    }

    /** minerBinaryUpdate.commit. It succeeds if and only if its removal does not fail. */
    method Commit(u: Update) returns (ok: bool)
      requires u.destination in files && guarded == map[]
      modifies `files, `operations, `safe
      ensures safe == old(safe) && operations >= old(operations)
      ensures SameOutside(files, old(files), {Backup(u.destination)})
      ensures ok <==> Quiet(faults, old(operations), operations)
      ensures ok && u.hadPrevious ==> Backup(u.destination) !in files
      ensures !u.hadPrevious ==> files == old(files)
      ensures u.destination in files && files[u.destination] == old(files)[u.destination]
    {
      NamesDiffer(u.destination);
      if !u.hadPrevious { return true; }
      ok := Remove(Backup(u.destination), u.directory);
    }

    /** Looking at what is at a path. */
    method Read(p: Path) returns (ok: bool, content: Content)
      requires p in files
      modifies `operations
      ensures operations == old(operations) + 1
      ensures ok == !faults(old(operations)) && content == files[p]
    {
      ok, content := !faults(operations), files[p];
      operations := operations + 1;
    }

    /** A verified download: what is staged has the expected digest. */
    method Download(destination: Path, expected: string) returns (ok: bool)
      requires Safe() && Clear(destination, guarded)
      modifies `files, `requests, `safe
      ensures Safe() && SameOutside(files, old(files), {Staged(destination)}) && requests == old(requests) + 1
      ensures ok <==> Offers(downloads(destination, old(requests)), digest, expected)
      ensures ok ==> Staged(destination) in files && digest(files[Staged(destination)]) == expected
    {
      NamesDiffer(destination);
      var received := downloads(destination, requests);
      requests := requests + 1;
      if received.None? { return false; }
      files := files[Staged(destination) := received.value];
      safe := safe && Recoverable(files, guarded);
      if digest(received.value) != expected {
        files := files - {Staged(destination)};
        safe := safe && Recoverable(files, guarded);
        return false;
      }
      ok := true;
    }
  }

  predicate Offers(download: Option<Content>, digest: Content -> string, expected: string) {
    download.Some? && digest(download.value) == expected
  }

  /**
   A miner package as far as its binary goes. complete: its metadata is, or, unmanaged, the miner is
   present on the host.
   */
  datatype Package = Package(managed: bool, complete: bool, path: Path, directory: bool, sha256: string)

  /** Two packages at one path are one package, and other names do not clash. */
  ghost predicate Apart(a: Package, b: Package) {
    if a.path == b.path then a == b else Names(a.path) !! Names(b.path)
  }

  predicate Present(files: Files, digest: Content -> string, pkg: Package) {
    pkg.path in files && digest(files[pkg.path]) == pkg.sha256
  }

  /** The package is there, or every request for it from now on brings it. */
  ghost predicate Obtainable(files: Files, digest: Content -> string, downloads: (Path, nat) -> Option<Content>,
      from: nat, pkg: Package)
  {
    pkg.complete && (pkg.managed ==> Present(files, digest, pkg) || forall n: nat :: n >= from ==>
        Offers(downloads(pkg.path, n), digest, pkg.sha256))
  }

  /** ensureManagedMiner: nothing to do, a verified download put in place, or an error that loses nothing. */
  method Ensure(fs: FileSystem, pkg: Package) returns (ok: bool, update: Option<Update>)
    requires fs.Safe() && Clear(pkg.path, fs.guarded)
    requires pkg.path in fs.guarded && !Present(fs.files, fs.digest, pkg) ==>
             pkg.path in fs.files && fs.files[pkg.path] == fs.guarded[pkg.path]
    modifies fs`files, fs`operations, fs`requests, fs`safe
    ensures fs.Safe() && fs.operations >= old(fs.operations) && fs.requests >= old(fs.requests)
    ensures Quiet(fs.faults, old(fs.operations), fs.operations) ==>
              Obtainable(old(fs.files), fs.digest, fs.downloads, old(fs.requests), pkg) ==> ok
    ensures ok ==> pkg.complete
    ensures !ok ==> update.None?
    ensures !ok && !SameAt(fs.files, old(fs.files), pkg.path) ==>
              fs.operations >= old(fs.operations) + 2 && fs.faults(fs.operations - 1) && fs.faults(fs.operations - 2)
    ensures !pkg.managed || Present(old(fs.files), fs.digest, pkg) ==> fs.files == old(fs.files) && update.None?
    ensures SameOutside(fs.files, old(fs.files), Names(pkg.path))
    ensures ok && pkg.managed ==> Present(fs.files, fs.digest, pkg)
    ensures ok && update.None? ==> fs.files == old(fs.files)
    ensures update.Some? ==> update.value.destination == pkg.path && InPlace(update.value, fs.files, old(fs.files))
  {
    NamesDiffer(pkg.path);
    update := None;
    if !pkg.managed || !pkg.complete { return pkg.complete, None; }
    if pkg.path in fs.files {
      var readable, content := fs.Read(pkg.path);
      if !readable { return false, None; }
      if fs.digest(content) == pkg.sha256 { return true, None; }
    }
    ok := fs.Download(pkg.path, pkg.sha256);
    if !ok { return; }
    update := fs.Replace(pkg.path, pkg.directory);
    ok := update.Some?;
  }

  // ----- two updates at a time -----

  /** Undoing an update, if there was one: it succeeds unless one of its operations fails. */
  method Undo(fs: FileSystem, u: Option<Update>, ghost was: Files) returns (ok: bool)
    requires fs.Safe()
    requires u.Some? ==> InPlace(u.value, fs.files, was) && Clear(u.value.destination, fs.guarded)
    requires u.Some? && u.value.destination in fs.guarded ==>
             u.value.hadPrevious && fs.guarded[u.value.destination] == was[u.value.destination]
    modifies fs`files, fs`operations, fs`safe
    ensures fs.Safe() && old(fs.operations) <= fs.operations <= old(fs.operations) + Steps(u)
    ensures ok <==> Quiet(fs.faults, old(fs.operations), fs.operations)
    ensures u.None? ==> ok && fs.files == old(fs.files)
    ensures u.Some? ==> SameOutside(fs.files, old(fs.files), Names(u.value.destination))
    ensures u.Some? && ok ==> SameAt(fs.files, was, u.value.destination)
  {
    if u.None? { return true; }
    ok := fs.Rollback(u.value, was);
  }
}
