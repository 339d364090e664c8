/**
 A miner bundle is looked through twice: by the controller, which verifies it when it is
 uploaded, and by the agent, which extracts it. The two agree.
 */
module MinerBundle {
  import opened Wrappers
  import opened BundlePaths

  type Content = seq<bv8>

  datatype Kind = FileEntry | DirEntry | OtherEntry

  /** A header of the archive, with the size it claims and what follows it. */
  datatype Entry = Entry(name: string, kind: Kind, size: int, content: Content)

  const MAX_FILE := 262144000
  const MAX_TOTAL := 1073741824
  const MAX_FILES := 10000

  function ArchiveName(e: Entry): string {
    if e.kind.DirEntry? && e.name != "" && e.name[|e.name| - 1] == '/' then e.name[..|e.name| - 1] else e.name
  }

  /** A directory may be written with a slash behind its name. */
  lemma ArchiveNameIs(e: Entry, name: string)
    ensures ArchiveName(e) == name <==>
              if e.kind.DirEntry? && e.name != "" && e.name[|e.name| - 1] == '/' then e.name == name + "/"
              else e.name == name
  {
    if e.name == name + "/" { assert e.name[..|e.name| - 1] == name; }
  }

  function Slashed(s: string): (r: string)
    ensures |r| == |s|
    ensures forall i :: 0 <= i < |s| ==> r[i] == if s[i] == '\\' then '/' else s[i]
  {
    if s == "" then "" else [if s[0] == '\\' then '/' else s[0]] + Slashed(s[1..])
  }

  predicate NameAccepted(e: Entry) {
    var clean := Clean(Slashed(ArchiveName(e)));
    ValidBundlePath(clean) && clean == ArchiveName(e)
  }

  lemma NameAcceptedIff(e: Entry)
    ensures NameAccepted(e) <==> Contained(ArchiveName(e))
  {
    var n := ArchiveName(e);
    ValidBundlePathIff(n);
    if '\\' !in n { assert Slashed(n) == n; }
  }

  datatype Count = Count(files: nat, total: int)

  predicate SizesAccepted(c: Count, e: Entry) {
    c.files + 1 <= MAX_FILES && 0 <= e.size <= MAX_FILE && c.total + e.size <= MAX_TOTAL
  }

  function Counted(entries: seq<Entry>): Count {
    if entries == [] then Count(0, 0)
    else
      var n := |entries| - 1;
      var front := Counted(entries[..n]);
      if entries[n].kind.FileEntry? then Count(front.files + 1, front.total + entries[n].size) else front
  }

  /** Every entry passes the path, type and size checks, which both sides make. */
  predicate Accepted(entries: seq<Entry>) {
    forall i :: 0 <= i < |entries| ==>
      && NameAccepted(entries[i]) && !entries[i].kind.OtherEntry?
      && (entries[i].kind.FileEntry? ==> SizesAccepted(Counted(entries[..i]), entries[i]))
  }

  /** The content that stands under a name after all entries: the last one wins. */
  function LastContent(entries: seq<Entry>, path: string): Option<Content> {
    if entries == [] then None
    else
      var last := entries[|entries| - 1];
      if last.kind.FileEntry?
          && ArchiveName(last) == path then Some(last.content) else LastContent(entries[..|entries| - 1], path)
  }

  /** What the verifier reports: the digest of the entry point. */
  function Verified(entries: seq<Entry>, entryPoint: string, hash: Content -> string): Option<string> {
    var content := LastContent(entries, entryPoint);
    if Accepted(entries) && content.Some? && hash(content.value) != "" then Some(hash(content.value)) else None
  }

  /** validateMinerBundle */
  method Verify(entries: seq<Entry>, entryPoint: string, hash: Content -> string) returns (digest: Option<string>)
    ensures digest == Verified(entries, entryPoint, hash)
  {
    hide NameAccepted;
    var files, total := 0, 0;
    var entryDigest := "";
    for i := 0 to |entries|
      invariant Accepted(entries[..i]) && Count(files, total) == Counted(entries[..i]) && files >= 0
      invariant var content := LastContent(entries[..i], entryPoint);
                entryDigest == if content.Some? then hash(content.value) else ""
    {
      var e := entries[i];
      Grows(entries, i);
      if !NameAccepted(e) || e.kind.OtherEntry? { return None; }
      if e.kind.DirEntry? { continue; }
      files := files + 1;
      total := total + e.size;
      if files > MAX_FILES || e.size < 0 || e.size > MAX_FILE || total > MAX_TOTAL { return None; }
      if ArchiveName(e) == entryPoint {
        entryDigest := hash(e.content);
      }
    }
    assert entries[..|entries|] == entries;
    digest := if entryDigest == "" then None else Some(entryDigest);
  }

  /** One more entry is accepted exactly when its own checks pass. */
  lemma Grows(entries: seq<Entry>, i: nat)
    requires i < |entries|
    ensures entries[..i + 1][..i] == entries[..i]
    ensures Accepted(entries) ==> Accepted(entries[..i + 1])
    ensures Accepted(entries[..i + 1]) <==>
              && Accepted(entries[..i]) && NameAccepted(entries[i]) && !entries[i].kind.OtherEntry?
              && (entries[i].kind.FileEntry? ==> SizesAccepted(Counted(entries[..i]), entries[i]))
  {
    hide NameAccepted, Counted;
    var more := entries[..i + 1];
    assert forall j :: 0 <= j <= i ==> more[..j] == entries[..j];
    assert forall j :: 0 <= j < i ==> entries[..i][..j] == entries[..j];
    assert forall j :: 0 <= j < i ==> more[j] == entries[..i][j];
  }

  lemma {:induction false} CountsGrow(entries: seq<Entry>, i: nat)
    requires i <= |entries|
    requires forall j :: 0 <= j < |entries| && entries[j].kind.FileEntry? ==> entries[j].size >= 0
    ensures Counted(entries[..i]).files <= Counted(entries).files
    ensures Counted(entries[..i]).total <= Counted(entries).total
  {
    if i < |entries| {
      var n := |entries| - 1;
      CountsGrow(entries[..n], i);
      assert entries[..n][..i] == entries[..i];
    } else {
      assert entries[..i] == entries;
    }
  }

  /**
   The archives that are accepted: no entry but files and directories, each under a name of plain pieces,
   at most 10000 files of at most 250 MiB, and at most 1 GiB in all.
   */
  lemma {:induction false} AcceptedIff(entries: seq<Entry>)
    ensures Accepted(entries) <==>
              && (forall e :: e in entries ==>
                    && Contained(ArchiveName(e)) && !e.kind.OtherEntry?
                    && (e.kind.FileEntry? ==> 0 <= e.size <= 250 * 1024 * 1024))
              && Counted(entries).files <= 10000 && Counted(entries).total <= 1024 * 1024 * 1024
  {
    hide NameAccepted, Contained;
    if entries != [] {
      var n := |entries| - 1;
      AcceptedIff(entries[..n]);
      Grows(entries, n);
      assert entries[..n + 1] == entries && entries == entries[..n] + [entries[n]];
      NameAcceptedIff(entries[n]);
      if forall j :: 0 <= j < |entries| && entries[j].kind.FileEntry? ==> entries[j].size >= 0 {
        CountsGrow(entries, n);
      }
    }
  }

  /** What stands under a name is the last file of that name. */
  lemma {:induction false} LastContentIs(entries: seq<Entry>, path: string, i: nat)
    requires i < |entries| && entries[i].kind.FileEntry? && ArchiveName(entries[i]) == path
    requires forall j :: i < j < |entries| ==> !(entries[j].kind.FileEntry? && ArchiveName(entries[j]) == path)
    ensures LastContent(entries, path) == Some(entries[i].content)
  {
    hide ArchiveName;
    var n := |entries| - 1;
    if i < n { LastContentIs(entries[..n], path, i); }
  }

  // ----- extraction -----

  /** What was extracted, relative to the destination directory. */
  datatype Tree = Tree(files: map<string, Content>, dirs: set<string>)

  /** The directories above a path. */
  function Above(path: string): set<string> {
    set i | 0 <= i < |path| && path[i] == '/' :: path[..i]
  }

  function NeededBy(e: Entry): set<string> {
    Above(ArchiveName(e)) + if e.kind.DirEntry? then {ArchiveName(e)} else {}
  }

  function FileNames(entries: seq<Entry>): set<string> {
    if entries == [] then {}
    else
      var last := entries[|entries| - 1];
      FileNames(entries[..|entries| - 1]) + if last.kind.FileEntry? then {ArchiveName(last)} else {}
  }

  function DirNames(entries: seq<Entry>): set<string> {
    if entries == [] then {} else DirNames(entries[..|entries| - 1]) + NeededBy(entries[|entries| - 1])
  }

  /** A name stands both for a file and for a directory. */
  predicate Clash(entries: seq<Entry>) {
    FileNames(entries) * DirNames(entries) != {}
  }

  function Contents(entries: seq<Entry>): map<string, Content> {
    if entries == [] then map[]
    else
      var last := entries[|entries| - 1];
      var front := Contents(entries[..|entries| - 1]);
      if last.kind.FileEntry? then front[ArchiveName(last) := last.content] else front
  }

  lemma NotAboveItself(path: string)
    ensures path !in Above(path)
  {
  }

  lemma {:induction false} ContentsAre(entries: seq<Entry>, path: string)
    ensures Contents(entries).Keys == FileNames(entries)
    ensures LastContent(entries, path) == if path in Contents(entries) then Some(Contents(entries)[path]) else None
  {
    if entries != [] { ContentsAre(entries[..|entries| - 1], path); }
  }

  /**
   extractManagedMinerBundle on a disk that does what it is told; the second result says whether the
   archive was accepted.
   */
  method Extract(entries: seq<Entry>) returns (tree: Option<Tree>)
    ensures tree.Some? <==> Accepted(entries) && !Clash(entries)
    ensures tree.Some? ==> tree.value == Tree(Contents(entries), DirNames(entries))
  {
    hide NameAccepted, Above;
    var files: map<string, Content> := map[];
    var dirs: set<string> := {};
    var count, total := 0, 0;
    for i := 0 to |entries|
      invariant Accepted(entries[..i]) && Count(count, total) == Counted(entries[..i]) && count >= 0
      invariant files == Contents(entries[..i]) && dirs == DirNames(entries[..i]) && !Clash(entries[..i])
    {
      var e := entries[i];
      var name := ArchiveName(e);
      Grows(entries, i);
      ClashGrows(entries, i);
      ContentsAre(entries[..i], name);
      if !NameAccepted(e) || e.kind.OtherEntry? { return None; }
      if e.kind.DirEntry? {
        if exists d :: d in NeededBy(e) && d in files { return None; }
        dirs := dirs + NeededBy(e);
      } else {
        count := count + 1;
        total := total + e.size;
        if count > MAX_FILES || e.size < 0 || e.size > MAX_FILE || total > MAX_TOTAL { return None; }
        if (exists d :: d in Above(name) && d in files) || name in dirs { return None; }
        dirs := dirs + Above(name);
        files := files[name := e.content];
      }
    }
    assert entries[..|entries|] == entries;
    tree := Some(Tree(files, dirs));
  }

  /** A clash stays; and a new one comes exactly from the new entry. */
  lemma ClashGrows(entries: seq<Entry>, i: nat)
    requires i < |entries|
    ensures Clash(entries[..i + 1]) ==> Clash(entries)
    ensures !Clash(entries[..i]) ==>
              (Clash(entries[..i + 1]) <==>
                 || NeededBy(entries[i]) * FileNames(entries[..i]) != {}
                 || (entries[i].kind.FileEntry? && ArchiveName(entries[i]) in DirNames(entries[..i])))
  {
    hide Above;
    assert entries[..i + 1][..i] == entries[..i];
    NotAboveItself(ArchiveName(entries[i]));
    NamesGrow(entries, i + 1);
  }

  lemma {:induction false} NamesGrow(entries: seq<Entry>, i: nat)
    requires i <= |entries|
    ensures FileNames(entries[..i]) <= FileNames(entries) && DirNames(entries[..i]) <= DirNames(entries)
    decreases |entries|
  {
    hide Above;
    if i < |entries| {
      var front := entries[..|entries| - 1];
      NamesGrow(front, i);
      assert front[..i] == entries[..i];
    } else {
      assert entries[..i] == entries;
    }
  }

  // ----- agreement -----

  /**
   What the controller verified the agent extracts, unless a name is both a file and a
   directory; and the extracted entry point has the verified digest.
   */
  lemma ExtractedAsVerified(entries: seq<Entry>, entryPoint: string, hash: Content -> string)
    ensures Verified(entries, entryPoint, hash).Some? && !Clash(entries) ==>
              && Accepted(entries)
              && entryPoint in Contents(entries)
              && Verified(entries, entryPoint, hash) == Some(hash(Contents(entries)[entryPoint]))
    ensures Accepted(entries) && entryPoint in Contents(entries) && hash(Contents(entries)[entryPoint]) != "" ==>
              Verified(entries, entryPoint, hash).Some?
  {
    hide Accepted;
    ContentsAre(entries, entryPoint);
  }

  /** Nothing is extracted outside the destination: every file has a path of plain names. */
  lemma {:induction false} ExtractedInside(entries: seq<Entry>, path: string)
    requires Accepted(entries) && path in Contents(entries)
    ensures Contained(path)
  {
    hide NameAccepted, Contained;
    var n := |entries| - 1;
    Grows(entries, n);
    assert entries[..n + 1] == entries;
    NameAcceptedIff(entries[n]);
    if path in Contents(entries[..n]) { ExtractedInside(entries[..n], path); }
  }

  lemma PlainNameAccepted(content: Content)
    ensures NameAccepted(Entry("a", FileEntry, 1, content)) && NameAccepted(Entry("a/b", FileEntry, 1, content))
  {
    hide Clean, ValidBundlePath, NameAccepted;
    SplitPiece("a", "b");
    SplitPiece("b", "");
    assert "a" + "/" + "b" == "a/b";
    NameAcceptedIff(Entry("a", FileEntry, 1, content));
    NameAcceptedIff(Entry("a/b", FileEntry, 1, content));
  }

  /** Such a clash is possible in an archive the controller accepts. */
  lemma ClashIsAccepted(content: Content, hash: Content -> string)
    requires hash(content) != ""
    ensures var entries := [Entry("a", FileEntry, 1, content), Entry("a/b", FileEntry, 1, content)];
            Verified(entries, "a", hash).Some? && Clash(entries)
  {
    hide NameAccepted;
    var first, second := Entry("a", FileEntry, 1, content), Entry("a/b", FileEntry, 1, content);
    var entries := [first, second];
    PlainNameAccepted(content);
    Grows(entries, 0);
    Grows(entries, 1);
    assert entries[..0] == [] && entries[..1] == [first] && entries[..2] == entries && [first][..0] == [];
    ClashGrows(entries, 1);
    assert "a/b"[1] == '/' && "a/b"[..1] == "a";
    assert "a" in Above("a/b");
    assert FileNames([first]) == {"a"} by { assert FileNames([]) == {}; }
    assert Counted([first]) == Count(1, 1);
    assert LastContent([first], "a") == Some(content);
    assert LastContent(entries, "a") == Some(content);
    assert "a" in NeededBy(second) * FileNames([first]);
    assert Clash(entries);
    assert Accepted(entries);
  }
}
