/**
 Paths inside a miner bundle. A path is accepted when the lexical clean-up of path names
 leaves it as it is; that is shown to mean exactly that it is relative and made of plain
 names, so an extracted entry cannot leave the directory it is extracted to.
 */
module BundlePaths {

  /** The pieces between slashes; never empty. */
  function Split(s: string): (parts: seq<string>)
    ensures |parts| > 0
  {
    if s == "" then [""]
    else
      var rest := Split(s[1..]);
      if s[0] == '/' then [""] + rest else [[s[0]] + rest[0]] + rest[1..]
  }

  function Join(parts: seq<string>): string {
    if parts == [] then ""
    else if |parts| == 1 then parts[0]
    else parts[0] + "/" + Join(parts[1..])
  }

  predicate NoSlash(part: string) {
    '/' !in part
  }

  /** Neither empty nor a dot name. */
  predicate Plain(part: string) {
    part != "" && part != "." && part != ".."
  }

  /**
   Empty and dot pieces dropped, each ".." taking the piece before it along; on a rooted path it
   cannot leave the root.
   */
  function Reduce(parts: seq<string>, rooted: bool): seq<string> {
    if parts == [] then []
    else
      var n := |parts| - 1;
      var front := Reduce(parts[..n], rooted);
      var last := parts[n];
      if last == "" || last == "." then front
      else if last != ".." then front + [last]
      else if front != [] && front[|front| - 1] != ".." then front[..|front| - 1]
      else if rooted then front
      else front + [".."]
  }

  /** path.Clean */
  function Clean(s: string): string {
    if s == "" then "."
    else if s[0] == '/' then "/" + Join(Reduce(Split(s), true))
    else
      var body := Join(Reduce(Split(s), false));
      if body == "" then "." else body
  }

  predicate StartsUp(s: string) {
    |s| >= 3 && s[..3] == "../"
  }

  /** validBundlePath, and the agent's validManagedBundlePath */
  predicate ValidBundlePath(s: string) {
    && s != "" && '\\' !in s && s[0] != '/'
    && Clean(s) == s && s != "." && s != ".." && !StartsUp(s)
  }

  /** What the check means. */
  predicate Contained(s: string) {
    '\\' !in s && forall i :: 0 <= i < |Split(s)| ==> Plain(Split(s)[i])
  }

  lemma {:induction false} JoinSplit(s: string)
    ensures Join(Split(s)) == s
    ensures forall i :: 0 <= i < |Split(s)| ==> NoSlash(Split(s)[i])
  {
    if s != "" {
      JoinSplit(s[1..]);
      var rest := Split(s[1..]);
      if s[0] == '/' {
        assert ([""] + rest)[1..] == rest;
      } else {
        var parts := [[s[0]] + rest[0]] + rest[1..];
        assert parts[1..] == rest[1..];
        assert s == [s[0]] + s[1..];
      }
    }
  }

  lemma {:induction false} SplitPiece(part: string, rest: string)
    requires NoSlash(part)
    ensures Split(part) == [part]
    ensures Split(part + "/" + rest) == [part] + Split(rest)
  {
    var s := part + "/" + rest;
    if part == "" {
      assert s[1..] == rest;
    } else {
      SplitPiece(part[1..], rest);
      assert s[1..] == part[1..] + "/" + rest;
      assert part == [part[0]] + part[1..];
    }
  }

  lemma {:induction false} SplitJoin(parts: seq<string>)
    requires parts != [] && forall i :: 0 <= i < |parts| ==> NoSlash(parts[i])
    ensures Split(Join(parts)) == parts
  {
    if |parts| == 1 {
      SplitPiece(parts[0], "");
    } else {
      SplitJoin(parts[1..]);
      SplitPiece(parts[0], Join(parts[1..]));
    }
  }

  /** A clean relative path is some number of ".." followed by plain names. */
  predicate UpThenPlain(parts: seq<string>) {
    forall i :: 0 <= i < |parts| ==>
      parts[i] != "" && parts[i] != "." && (parts[i] == ".." ==> forall j :: 0 <= j < i ==> parts[j] == "..")
  }

  lemma {:induction false} ReduceShape(parts: seq<string>)
    requires forall i :: 0 <= i < |parts| ==> NoSlash(parts[i])
    ensures UpThenPlain(Reduce(parts, false))
    ensures forall i :: 0 <= i < |Reduce(parts, false)| ==> NoSlash(Reduce(parts, false)[i])
  {
    if parts != [] { ReduceShape(parts[..|parts| - 1]); }
  }

  lemma {:induction false} ReducePlain(parts: seq<string>, rooted: bool)
    requires forall i :: 0 <= i < |parts| ==> Plain(parts[i])
    ensures Reduce(parts, rooted) == parts
  {
    if parts != [] {
      ReducePlain(parts[..|parts| - 1], rooted);
      assert parts == parts[..|parts| - 1] + [parts[|parts| - 1]];
    }
  }

  lemma JoinNotEmpty(parts: seq<string>)
    requires parts != [] && parts[0] != ""
    ensures Join(parts) != "" && Join(parts)[0] == parts[0][0]
    ensures parts[0] == ".." && |parts| > 1 ==> StartsUp(Join(parts))
    ensures parts[0] == ".." && |parts| == 1 ==> Join(parts) == ".."
  {
  }

  /** A path passes the check exactly when it has no backslash and every piece is a plain name. */
  lemma ValidBundlePathIff(s: string)
    ensures ValidBundlePath(s) <==> Contained(s)
  {
    JoinSplit(s);
    var parts := Split(s);
    if Contained(s) {
      ReducePlain(parts, false);
      assert Plain(parts[0]);
      JoinNotEmpty(parts);
      assert parts[0] != "" && NoSlash(parts[0]) && parts[0][0] in parts[0];
      if s == "." || s == ".." || StartsUp(s) { DotPieces(s); }
    }
    if ValidBundlePath(s) {
      ReduceShape(parts);
      var clean := Reduce(parts, false);
      assert clean != [];
      SplitJoin(clean);
      assert parts == clean;
      if clean[0] == ".." { JoinNotEmpty(clean); }
      assert clean[0] != "..";
    }
  }

  lemma DotPieces(s: string)
    requires s == "." || s == ".." || StartsUp(s)
    ensures !Plain(Split(s)[0])
  {
    if StartsUp(s) {
      SplitPiece("..", s[3..]);
      assert s == ".." + "/" + s[3..];
    } else {
      SplitPiece(s, "");
    }
  }
}
