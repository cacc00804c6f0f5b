/** The patch shown after an edit: diffLines (tools.go). */
module Diff {
  import opened Strs
  import opened LineEdit

  /** One hunk: from line `at` (counted from 0), `del` gives way to `add`. */
  datatype Hunk = Hunk(at: nat, del: seq<string>, add: seq<string>)

  datatype Patch = Same | Change(hunk: Hunk)

  /** Applying the hunk to one sequence of lines gives the other. */
  predicate Turns(was: seq<string>, h: Hunk, now: seq<string>) {
    h.at + |h.del| <= |was| && h.del == was[h.at..h.at + |h.del|] && now == Splice(was, h.at, h.at + |h.del|, h.add)
  }

  /** No single hunk between the two deletes or adds fewer lines. */
  ghost predicate Minimal(was: seq<string>, h: Hunk, now: seq<string>) {
    forall g :: Turns(was, g, now) ==> |h.del| <= |g.del| && |h.add| <= |g.add|
  }

  /** No single hunk between the two starts later. */
  ghost predicate Latest(was: seq<string>, h: Hunk, now: seq<string>) {
    forall g :: Turns(was, g, now) ==> g.at <= h.at
  }

  /** The hunk that deletes the middle of the one and adds the middle of the other. */
  function Middle(was: seq<string>, now: seq<string>, i: nat, j: nat): Hunk
    requires i + j <= |was| && i + j <= |now|
  {
    Hunk(i, was[i..|was| - j], now[i..|now| - j])
  }

  /** The two share i lines at the front and j at the end. */
  predicate Share(was: seq<string>, now: seq<string>, i: nat, j: nat) {
    i + j <= |was| && i + j <= |now| && was[..i] == now[..i] && was[|was| - j..] == now[|now| - j..]
  }

  lemma FrontGrows(was: seq<string>, now: seq<string>, i: nat)
    requires Share(was, now, i, 0) && i < |was| && i < |now| && was[i] == now[i]
    ensures Share(was, now, i + 1, 0)
  {
    assert was[..i + 1] == was[..i] + [was[i]];
    assert now[..i + 1] == now[..i] + [now[i]];
  }

  lemma EndGrows(was: seq<string>, now: seq<string>, i: nat, j: nat)
    requires Share(was, now, i, j) && i + j < |was| && i + j < |now| && was[|was| - 1 - j] == now[|now| - 1 - j]
    ensures Share(was, now, i, j + 1)
  {
    assert was[|was| - (j + 1)..] == [was[|was| - 1 - j]] + was[|was| - j..];
    assert now[|now| - (j + 1)..] == [now[|now| - 1 - j]] + now[|now| - j..];
  }

  lemma MiddleTurns(was: seq<string>, now: seq<string>, i: nat, j: nat)
    requires Share(was, now, i, j)
    ensures Turns(was, Middle(was, now, i, j), now)
  {
    assert now == now[..i] + now[i..|now| - j] + now[|now| - j..];
  }

  /** A hunk leaves so many lines alone at the front and at the end. */
  lemma TurnsShare(was: seq<string>, h: Hunk, now: seq<string>)
    requires Turns(was, h, now)
    ensures Share(was, now, h.at, |was| - h.at - |h.del|)
    ensures |now| - |was| == |h.add| - |h.del|
  {
  }

  lemma FrontSame(was: seq<string>, now: seq<string>, i: nat, j: nat, k: nat)
    requires Share(was, now, i, j) && k < i
    ensures was[k] == now[k]
  {
    assert was[..i][k] == now[..i][k];
  }

  lemma EndSame(was: seq<string>, now: seq<string>, i: nat, j: nat, k: nat)
    requires Share(was, now, i, j) && k < j
    ensures was[|was| - 1 - k] == now[|now| - 1 - k]
  {
    assert was[|was| - j..][j - 1 - k] == now[|now| - j..][j - 1 - k];
  }

  /** Taking the longest common front, and then the longest common end beside it, takes the most there is. */
  lemma GreedyIsMinimal(was: seq<string>, now: seq<string>, i: nat, j: nat)
    requires Share(was, now, i, j)
    requires i == |was| || i == |now| || was[i] != now[i]
    requires i + j == |was| || i + j == |now| || was[|was| - 1 - j] != now[|now| - 1 - j]
    ensures Minimal(was, Middle(was, now, i, j), now) && Latest(was, Middle(was, now, i, j), now)
  {
    forall g | Turns(was, g, now)
      ensures var h := Middle(was, now, i, j); |h.del| <= |g.del| && |h.add| <= |g.add| && g.at <= h.at
    {
      TurnsShare(was, g, now);
      GreedySharesMost(was, now, i, j, g.at, |was| - g.at - |g.del|);
    }
  }

  lemma GreedySharesMost(was: seq<string>, now: seq<string>, i: nat, j: nat, p: nat, s: nat)
    requires Share(was, now, i, j) && Share(was, now, p, s)
    requires i == |was| || i == |now| || was[i] != now[i]
    requires i + j == |was| || i + j == |now| || was[|was| - 1 - j] != now[|now| - 1 - j]
    ensures p + s <= i + j && p <= i
  {
    if i < p { FrontSame(was, now, p, s, i); }
    else if j < s { EndSame(was, now, p, s, j); }
  }

  /** There is just one hunk that deletes and adds the fewest lines and starts the latest. */
  lemma HunkIsUnique(was: seq<string>, g: Hunk, h: Hunk, now: seq<string>)
    requires Turns(was, g, now) && Minimal(was, g, now) && Latest(was, g, now)
    requires Turns(was, h, now) && Minimal(was, h, now) && Latest(was, h, now)
    ensures g == h
  {
    assert g.at == h.at && |g.del| == |h.del| && |g.add| == |h.add|;
    assert now[g.at..g.at + |g.add|] == g.add && now[h.at..h.at + |h.add|] == h.add;
  }

  /** The loops of diffLines on two sequences of lines. */
  method TrimCommon(oldLines: seq<string>, newLines: seq<string>) returns (h: Hunk)
    ensures Turns(oldLines, h, newLines) && Minimal(oldLines, h, newLines) && Latest(oldLines, h, newLines)
  {
    var i := 0;
    while i < |oldLines| && i < |newLines| && oldLines[i] == newLines[i]
      invariant Share(oldLines, newLines, i, 0)
    {
      FrontGrows(oldLines, newLines, i);
      i := i + 1;
    }
    var j := 0;
    while j < |oldLines| - i && j < |newLines| - i && oldLines[|oldLines| - 1 - j] == newLines[|newLines| - 1 - j]
      invariant Share(oldLines, newLines, i, j)
    {
      EndGrows(oldLines, newLines, i, j);
      j := j + 1;
    }
    MiddleTurns(oldLines, newLines, i, j);
    GreedyIsMinimal(oldLines, newLines, i, j);
    h := Middle(oldLines, newLines, i, j);
  }

  method DiffLines(oldText: string, newText: string) returns (p: Patch)
    ensures p.Same? <==> oldText == newText
    ensures p.Change? ==>
              && Turns(Lines(oldText), p.hunk, Lines(newText)) && Minimal(Lines(oldText), p.hunk, Lines(newText))
              && Latest(Lines(oldText), p.hunk, Lines(newText))
  {
    if oldText == newText {
      return Same;
    }
    var oldLines, newLines := Split(TrimNewline(oldText), NL), Split(TrimNewline(newText), NL);
    if |oldLines| == 1 && oldLines[0] == "" {
      oldLines := [];
    }
    if |newLines| == 1 && newLines[0] == "" {
      newLines := [];
    }
    LinesAgain(oldText);
    LinesAgain(newText);
    var h := TrimCommon(oldLines, newLines);
    p := Change(h);
  }

  /** A single blank line counts as no lines. */
  lemma LinesAgain(text: string)
    ensures var lines := Split(TrimNewline(text), NL);
            Lines(text) == if |lines| == 1 && lines[0] == "" then [] else lines
  {
    JoinSplit(TrimNewline(text), NL);
  }

  /** An empty hunk: the texts differ in the final newline only. */
  lemma EmptyHunkIff(oldText: string, newText: string, h: Hunk)
    requires Turns(Lines(oldText), h, Lines(newText)) && Minimal(Lines(oldText), h, Lines(newText))
    ensures h.del == [] && h.add == [] <==> TrimNewline(oldText) == TrimNewline(newText)
  {
    if TrimNewline(oldText) == TrimNewline(newText) {
      assert Turns(Lines(oldText), Hunk(0, [], []), Lines(newText));
    } else if h.del == [] && h.add == [] {
      assert Lines(oldText) == Lines(newText);
      JoinSplit(TrimNewline(oldText), NL);
      JoinSplit(TrimNewline(newText), NL);
      assert false;
    }
  }

  // ---- the size reported for an edit ----

  /** What is read back after an edit is the splice, or the splice without a last blank line. */
  function ReadBack(lines: seq<string>, newline: bool): seq<string> {
    if LosesBlank(lines, newline) then Shortened(lines) else lines
  }

  lemma EditedLines(text: string, a: int, b: int, content: string, r: string)
    requires LineEdited(text, a, b, content) == Edited(r)
    ensures InRange(text, a, b)
    ensures Lines(r) == ReadBack(After(text, a, b, content), EndsNewline(text))
  {
    LinesFree(text);
    PiecesFree(content);
    SpliceFree(Lines(text), a - 1, a - 1 + Replaced(a, b), Pieces(content));
    LinesUnlines(After(text, a, b, content), EndsNewline(text));
  }

  lemma LinesEnd(text: string)
    ensures var lines := Lines(text); lines != [""] && (!EndsNewline(text) && lines != [] ==> lines[|lines| - 1] != "")
  {
    OpenEnd(text);
    NotOneBlank(text);
  }

  lemma PiecesNotBlank(content: string)
    ensures Pieces(content) != [""] && (Pieces(content) == [] <==> content == "")
    ensures |Pieces(content)| == CountLines(content)
  {
    if content != "" { PiecesEnd(content); }
  }

  /** An edit can be shown by a hunk that deletes no more lines than it replaced and adds no more than its
      content has. */
  ghost predicate Shows(was: seq<string>, now: seq<string>, replaced: nat, added: nat) {
    exists g :: Turns(was, g, now) && |g.del| <= replaced && |g.add| <= added
  }

  /** The hunk shown for an edit deletes no more lines than the edit replaced and adds no more than its content
      has, even where repeated lines shift it, unless a deletion leaves a blank line last that gets lost: then,
      and only then, it deletes more. */
  lemma ReportedSizeIff(text: string, a: int, b: int, content: string, r: string, h: Hunk)
    requires LineEdited(text, a, b, content) == Edited(r)
    requires Turns(Lines(text), h, Lines(r)) && Minimal(Lines(text), h, Lines(r))
    ensures InRange(text, a, b)
    ensures |h.del| <= Replaced(a, b) && |h.add| <= CountLines(content)
            <==> !(a <= b && content == "" && LosesBlank(After(text, a, b, content), EndsNewline(text)))
  {
    EditedLines(text, a, b, content, r);
    SizeOfEdit(text, a, b, content, Lines(r));
  }

  lemma SizeOfEdit(text: string, a: int, b: int, content: string, now: seq<string>)
    requires InRange(text, a, b) && now == ReadBack(After(text, a, b, content), EndsNewline(text))
    ensures Shows(Lines(text), now, Replaced(a, b), CountLines(content))
            <==> !(a <= b && content == "" && LosesBlank(After(text, a, b, content), EndsNewline(text)))
  {
    hide Lines, Split;
    PiecesNotBlank(content);
    LinesEnd(text);
    SizeIff(Lines(text), a - 1, a - 1 + Replaced(a, b), Pieces(content), EndsNewline(text), now);
  }

  /** The same about lines. */
  lemma SizeIff(was: seq<string>, from: nat, to: nat, pieces: seq<string>, newline: bool, now: seq<string>)
    requires from <= to <= |was| && was != [""] && pieces != [""]
    requires !newline && was != [] ==> was[|was| - 1] != ""
    requires now == ReadBack(Splice(was, from, to, pieces), newline)
    ensures Shows(was, now, to - from, |pieces|)
            <==> !(from < to && pieces == [] && LosesBlank(Splice(was, from, to, pieces), newline))
  {
    var after := Splice(was, from, to, pieces);
    if !LosesBlank(after, newline) {
      SpliceTurns(was, from, to, pieces);
    } else if pieces == [] {
      assert from == to ==> after == was;
      forall g | Turns(was, g, now) ensures |g.del| > to - from { TurnsShare(was, g, now); }
    } else {
      BlankFromPieces(was, from, to, pieces, newline);
      SpliceTurns(was, from, to, FewerPieces(from, pieces));
    }
  }

  lemma SpliceTurns(was: seq<string>, from: nat, to: nat, pieces: seq<string>)
    requires from <= to <= |was|
    ensures Turns(was, Hunk(from, was[from..to], pieces), Splice(was, from, to, pieces))
  {
  }

  /** The lines new content still contributes when its last blank line is lost. */
  function FewerPieces(from: nat, pieces: seq<string>): seq<string>
    requires pieces != []
  {
    if from == 0 then Shortened(pieces) else pieces[..|pieces| - 1]
  }

  /** New content can only lose a blank line of its own. */
  lemma BlankFromPieces(was: seq<string>, from: nat, to: nat, pieces: seq<string>, newline: bool)
    requires from <= to <= |was| && pieces != [] && pieces != [""]
    requires !newline && was != [] ==> was[|was| - 1] != ""
    requires LosesBlank(Splice(was, from, to, pieces), newline)
    ensures Shortened(Splice(was, from, to, pieces)) == Splice(was, from, to, FewerPieces(from, pieces))
  {
    SpliceEnd(was, from, to, pieces);
    ShortenSplice(was, from, pieces);
    assert Splice(was, from, to, pieces) == was[..from] + pieces;
    assert Splice(was, from, to, FewerPieces(from, pieces)) == was[..from] + FewerPieces(from, pieces);
  }

  lemma SpliceEnd(lines: seq<string>, from: nat, to: nat, pieces: seq<string>)
    requires from <= to <= |lines| && pieces != [] && pieces != [""]
    ensures var after := Splice(lines, from, to, pieces);
            && after != [""] && after != []
            && after[|after| - 1] == (if to < |lines| then lines[|lines| - 1] else pieces[|pieces| - 1])
  {
    var after := Splice(lines, from, to, pieces);
    assert |after| == 1 ==> after == pieces;
  }

  lemma ShortenSplice(lines: seq<string>, from: nat, pieces: seq<string>)
    requires from <= |lines| && pieces != [] && pieces != [""] && pieces[|pieces| - 1] == ""
    ensures Shortened(lines[..from] + pieces) == lines[..from] + FewerPieces(from, pieces)
  {
    var init := lines[..from] + pieces[..|pieces| - 1];
    assert (lines[..from] + pieces)[..from + |pieces| - 1] == init;
    if from == 0 {
      assert init == pieces[..|pieces| - 1];
    } else {
      assert pieces == pieces[..|pieces| - 1] + [""];
      assert |init| > 1;
    }
  }
}
