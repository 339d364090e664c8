/**
 String rewriting that decides what a rig mines under: the wallet template and the
 in-place argument rewrite.
 */
module Templates {

  datatype Piece = Letter(c: char) | WalletSlot | WorkerSlot

  const PAIR := "{WALLET}.{WORKER}"
  const SOLO := "{WALLET}"

  predicate StartsWith(s: string, prefix: string) {
    |prefix| <= |s| && s[..|prefix|] == prefix
  }

  /** The piece a text begins with, and its length in the text. */
  function Leading(t: string): (r: (Piece, nat))
    requires t != ""
    ensures 1 <= r.1 <= |t|
  {
    if StartsWith(t, "%WAL%") then (WalletSlot, 5)
    else if StartsWith(t, "%WORKER_NAME%") then (WorkerSlot, 13)
    else if StartsWith(t, "{WALLET}") then (WalletSlot, 8)
    else if StartsWith(t, "{WORKER}") then (WorkerSlot, 8)
    else (Letter(t[0]), 1)
  }

  /** The template as the replacer scans it: left to right, without overlapping matches. */
  function Pieces(t: string): seq<Piece>
    decreases |t|
  {
    if t == "" then [] else [Leading(t).0] + Pieces(t[Leading(t).1..])
  }

  function Fill(pieces: seq<Piece>, wallet: string, worker: string): string {
    if pieces == [] then ""
    else
      (match pieces[0]
       case Letter(c) => [c]
       case WalletSlot => wallet
       case WorkerSlot => worker) + Fill(pieces[1..], wallet, worker)
  }

  function Render(template: string, wallet: string, worker: string): string {
    Fill(Pieces(template), wallet, worker)
  }

  predicate MentionsWorker(template: string) {
    WorkerSlot in Pieces(template)
  }

  function WorkerSlots(pieces: seq<Piece>): nat {
    if pieces == [] then 0 else (if pieces[0].WorkerSlot? then 1 else 0) + WorkerSlots(pieces[1..])
  }

  lemma {:induction false} NoSlotsNoWorker(pieces: seq<Piece>)
    ensures WorkerSlots(pieces) == 0 <==> WorkerSlot !in pieces
  {
    if pieces != [] {
      NoSlotsNoWorker(pieces[1..]);
      assert pieces == [pieces[0]] + pieces[1..];
    }
  }

  lemma {:induction false} LengthGap(pieces: seq<Piece>, wallet: string, a: string, b: string)
    ensures |Fill(pieces, wallet, a)| - |Fill(pieces, wallet, b)| == WorkerSlots(pieces) * (|a| - |b|)
  {
    if pieces != [] {
      LengthGap(pieces[1..], wallet, a, b);
    }
  }

  lemma {:induction false} SameLengthNamesShow(pieces: seq<Piece>, wallet: string, a: string, b: string)
    requires |a| == |b| && Fill(pieces, wallet, a) == Fill(pieces, wallet, b)
    ensures a == b || WorkerSlot !in pieces
  {
    if pieces != [] {
      var restA, restB := Fill(pieces[1..], wallet, a), Fill(pieces[1..], wallet, b);
      match pieces[0]
      case Letter(c) =>
        assert ([c] + restA)[1..] == restA && ([c] + restB)[1..] == restB;
        SameLengthNamesShow(pieces[1..], wallet, a, b);
      case WalletSlot =>
        assert (wallet + restA)[|wallet|..] == restA && (wallet + restB)[|wallet|..] == restB;
        SameLengthNamesShow(pieces[1..], wallet, a, b);
      case WorkerSlot =>
        assert (a + restA)[..|a|] == a && (b + restB)[..|b|] == b;
    }
  }

  /** Two different worker names render alike exactly when the template has no worker slot. */
  lemma RenderShowsWorker(template: string, wallet: string, a: string, b: string)
    requires a != b
    ensures Render(template, wallet, a) == Render(template, wallet, b) <==> !MentionsWorker(template)
  {
    var pieces := Pieces(template);
    LengthGap(pieces, wallet, a, b);
    NoSlotsNoWorker(pieces);
    if Fill(pieces, wallet, a) == Fill(pieces, wallet, b) {
      if |a| == |b| {
        SameLengthNamesShow(pieces, wallet, a, b);
      } else {
        ProductZero(WorkerSlots(pieces), |a| - |b|);
      }
    } else if WorkerSlots(pieces) == 0 {
      FillIgnoresWorker(pieces, wallet, a, b);
    }
  }

  lemma ProductZero(x: int, y: int)
    requires x * y == 0 && y != 0
    ensures x == 0
  {
  }

  lemma {:induction false} FillIgnoresWorker(pieces: seq<Piece>, wallet: string, a: string, b: string)
    requires WorkerSlot !in pieces
    ensures Fill(pieces, wallet, a) == Fill(pieces, wallet, b)
  {
    if pieces != [] {
      FillIgnoresWorker(pieces[1..], wallet, a, b);
    }
  }

  lemma {:induction false} FillBoth(p: seq<Piece>, q: seq<Piece>, wallet: string, worker: string)
    ensures Fill(p + q, wallet, worker) == Fill(p, wallet, worker) + Fill(q, wallet, worker)
  {
    if p == [] {
      assert p + q == q;
    } else {
      FillBoth(p[1..], q, wallet, worker);
      assert (p + q)[1..] == p[1..] + q;
      var first := match p[0] case Letter(c) => [c] case WalletSlot => wallet case WorkerSlot => worker;
      var rest, more := Fill(p[1..], wallet, worker), Fill(q, wallet, worker);
      assert first + (rest + more) == (first + rest) + more;
    }
  }

  ghost predicate IsMarker(marker: string) {
    marker == "%WAL%" || marker == "%WORKER_NAME%" || marker == "{WALLET}" || marker == "{WORKER}"
  }

  /** No marker has a brace, and none in braces a percent sign, anywhere but at its start. */
  lemma InsideMarker(marker: string, k: nat)
    requires IsMarker(marker) && 1 <= k < |marker|
    ensures marker[k] != '{' && (marker[0] == '{' ==> marker[k] != '%') && (marker[0] == '{' || marker[0] == '%')
  {
  }

  lemma LetterAt(s: string, prefix: string, k: nat)
    requires StartsWith(s, prefix) && k < |prefix|
    ensures k < |s| && s[k] == prefix[k]
  {
    assert s[k] == s[..|prefix|][k];
  }

  lemma MarkerStays(a: string, b: string, marker: string)
    requires a != "" && b != "" && IsMarker(marker)
    requires b[0] == '{' || (b[0] == '%' && '%' !in a)
    ensures StartsWith(a + b, marker) <==> StartsWith(a, marker)
  {
    hide IsMarker;
    if |marker| <= |a| {
      assert (a + b)[..|marker|] == a[..|marker|];
    } else if StartsWith(a + b, marker) {
      LetterAt(a + b, marker, 0);
      LetterAt(a + b, marker, |a|);
      InsideMarker(marker, |a|);
    }
  }

  lemma LeadingStays(a: string, b: string)
    requires a != "" && b != ""
    requires b[0] == '{' || (b[0] == '%' && '%' !in a)
    ensures Leading(a + b) == Leading(a)
  {
    hide StartsWith;
    MarkerStays(a, b, "%WAL%");
    MarkerStays(a, b, "%WORKER_NAME%");
    MarkerStays(a, b, "{WALLET}");
    MarkerStays(a, b, "{WORKER}");
  }

  /** A template is scanned piecewise where nothing can straddle the cut. */
  lemma {:induction false} PiecesBoth(a: string, b: string)
    requires b != "" && (b[0] == '{' || (b[0] == '%' && '%' !in a))
    ensures Pieces(a + b) == Pieces(a) + Pieces(b)
    decreases |a|
  {
    hide Leading;
    if a == "" {
      assert a + b == b;
    } else {
      LeadingStays(a, b);
      var n := Leading(a).1;
      PiecesBoth(a[n..], b);
      assert (a + b)[n..] == a[n..] + b;
    }
  }

  lemma MarkerLeads(marker: string, after: string)
    requires IsMarker(marker)
    ensures Leading(marker + after) ==
            (if marker in ["%WAL%", "{WALLET}"] then WalletSlot else WorkerSlot, |marker|)
  {
    assert (marker + after)[..|marker|] == marker;
    assert (marker + after)[0] == marker[0] && (marker + after)[1] == marker[1];
    assert (marker + after)[2] == marker[2] && (marker + after)[3] == marker[3];
  }

  lemma SlotIsFilled(before: string, marker: string, after: string, wallet: string, worker: string)
    requires IsMarker(marker) && (marker[0] == '{' || (marker[0] == '%' && '%' !in before))
    ensures Render(before + (marker + after), wallet, worker)
         == Render(before, wallet, worker)
            + (if marker in ["%WAL%", "{WALLET}"] then wallet else worker) + Render(after, wallet, worker)
  {
    hide Leading;
    PiecesBoth(before, marker + after);
    FillBoth(Pieces(before), Pieces(marker + after), wallet, worker);
    MarkerLeads(marker, after);
    assert (marker + after)[|marker|..] == after;
  }

  /** Wherever a marker in braces stands, and wherever the first marker in percent signs stands, its value appears. */
  lemma SlotsAreFilled(before: string, after: string, wallet: string, worker: string)
    ensures Render(before + ("{WALLET}" + after), wallet, worker)
         == Render(before, wallet, worker) + wallet + Render(after, wallet, worker)
    ensures Render(before + ("{WORKER}" + after), wallet, worker)
         == Render(before, wallet, worker) + worker + Render(after, wallet, worker)
    ensures '%' !in before ==>
              Render(before + ("%WAL%" + after), wallet, worker)
                == Render(before, wallet, worker) + wallet + Render(after, wallet, worker)
    ensures '%' !in before ==>
              Render(before + ("%WORKER_NAME%" + after), wallet, worker)
                == Render(before, wallet, worker) + worker + Render(after, wallet, worker)
  {
    hide Render;
    SlotIsFilled(before, "{WALLET}", after, wallet, worker);
    SlotIsFilled(before, "{WORKER}", after, wallet, worker);
    if '%' !in before {
      SlotIsFilled(before, "%WAL%", after, wallet, worker);
      SlotIsFilled(before, "%WORKER_NAME%", after, wallet, worker);
    }
  }

  /** A template without markers is the mining user itself. */
  lemma {:induction false} LettersStay(text: string, wallet: string, worker: string)
    requires '%' !in text && '{' !in text
    ensures Render(text, wallet, worker) == text
  {
    if text != "" {
      LettersStay(text[1..], wallet, worker);
      assert text == [text[0]] + text[1..];
    }
  }

  /** Lower case, for comparisons that ignore case (ASCII). */
  function Fold(s: string): string {
    seq(|s|, i requires 0 <= i < |s| => if 'A' <= s[i] <= 'Z' then (s[i] as int + 32) as char else s[i])
  }

  /** The capital of a small letter. */
  predicate CapitalOf(big: char, small: char) {
    'A' <= big <= 'Z' && 'a' <= small <= 'z' && big as int - 'A' as int == small as int - 'a' as int
  }

  /** Two texts fold alike exactly when they differ at most in the case of letters. */
  lemma FoldsAlikeIff(a: string, b: string)
    ensures Fold(a) == Fold(b) <==>
              && |a| == |b|
              && forall i :: 0 <= i < |a| ==> a[i] == b[i] || CapitalOf(a[i], b[i]) || CapitalOf(b[i], a[i])
  {
    if |a| == |b| {
      forall i | 0 <= i < |a|
        ensures Fold(a)[i] == Fold(b)[i] <==> a[i] == b[i] || CapitalOf(a[i], b[i]) || CapitalOf(b[i], a[i])
      {
      }
    }
  }

  predicate Contains(s: string, part: string) {
    StartsWith(s, part) || (s != "" && Contains(s[1..], part))
  }

  /** Every "{WALLET}.{WORKER}" becomes "{WALLET}". */
  function DropWorker(argument: string): (r: string)
    ensures |r| <= |argument|
    decreases |argument|
  {
    if argument == "" then ""
    else if StartsWith(argument, PAIR) then SOLO + DropWorker(argument[|PAIR|..])
    else [argument[0]] + DropWorker(argument[1..])
  }

  function DropWorkers(arguments: seq<string>): (r: seq<string>)
    ensures |r| == |arguments|
    ensures forall i :: 0 <= i < |arguments| ==> r[i] == DropWorker(arguments[i])
  {
    seq(|arguments|, i requires 0 <= i < |arguments| => DropWorker(arguments[i]))
  }

  /** The rewrite leaves an argument alone exactly when the pair does not occur in it. */
  lemma {:induction false} DropWorkerInert(argument: string)
    ensures DropWorker(argument) == argument <==> !Contains(argument, PAIR)
    ensures Contains(argument, PAIR) ==> |DropWorker(argument)| < |argument|
    decreases |argument|
  {
    if argument != "" && !StartsWith(argument, PAIR) {
      DropWorkerInert(argument[1..]);
      var rest := DropWorker(argument[1..]);
      assert argument == [argument[0]] + argument[1..];
      assert ([argument[0]] + rest)[1..] == rest;
    }
  }

  /** No proper end of the pair is a beginning of it, so no match straddles one that follows. */
  lemma PairStays(a: string, b: string)
    requires a != "" && StartsWith(b, PAIR)
    ensures StartsWith(a + b, PAIR) <==> StartsWith(a, PAIR)
  {
    if |PAIR| <= |a| {
      assert (a + b)[..|PAIR|] == a[..|PAIR|];
    } else if StartsWith(a + b, PAIR) {
      LetterAt(a + b, PAIR, |a|);
      LetterAt(b, PAIR, 0);
      LetterAt(b, PAIR, 2);
      if |a| == 9 {
        LetterAt(a + b, PAIR, 11);
      }
    }
  }

  /** Every pair in an argument, wherever it stands, loses its worker, and nothing else changes. */
  lemma {:induction false} PairLosesWorker(before: string, after: string)
    ensures DropWorker(before + ("{WALLET}.{WORKER}" + after)) == DropWorker(before) + "{WALLET}" + DropWorker(after)
    decreases |before|
  {
    hide DropWorker, StartsWith;
    var rest := PAIR + after;
    assert rest[..|PAIR|] == PAIR && rest[|PAIR|..] == after;
    PairStarts(after);
    PairDropped(rest);
    if before == "" {
      assert before + rest == rest;
    } else {
      PairStays(before, rest);
      if StartsWith(before, PAIR) {
        PairDropped(before);
        PairDropped(before + rest);
        PairLosesWorker(before[|PAIR|..], after);
        assert (before + rest)[|PAIR|..] == before[|PAIR|..] + rest;
      } else {
        LetterKept(before);
        LetterKept(before + rest);
        PairLosesWorker(before[1..], after);
        assert (before + rest)[1..] == before[1..] + rest;
      }
    }
  }

  lemma PairStarts(after: string)
    ensures StartsWith(PAIR + after, PAIR)
  {
    assert (PAIR + after)[..|PAIR|] == PAIR;
  }

  lemma PairDropped(s: string)
    requires StartsWith(s, PAIR)
    ensures |PAIR| <= |s| && DropWorker(s) == SOLO + DropWorker(s[|PAIR|..])
  {
  }

  lemma LetterKept(s: string)
    requires s != "" && !StartsWith(s, PAIR)
    ensures DropWorker(s) == [s[0]] + DropWorker(s[1..])
  {
  }
}
