/** Line edits of a file: applyLineEdit and countLines (tools.go). */
module LineEdit {
  import opened Strs

  const NL := '\n'

  // ---- texts and their lines ----

  predicate EndsNewline(s: string) {
    s != "" && s[|s| - 1] == NL
  }

  function TrimNewline(s: string): string {
    if EndsNewline(s) then s[..|s| - 1] else s
  }

  /** The lines of a text as the editor counts them. */
  function Lines(text: string): seq<string> {
    var body := TrimNewline(text);
    if body == "" then [] else Split(body, NL)
  }

  /** The lines new content contributes. */
  function Pieces(content: string): seq<string> {
    if content == "" then [] else Split(content, NL)
  }

  function CountLines(s: string): nat {
    if s == "" then 0 else |Split(s, NL)|
  }

  function Unlines(lines: seq<string>, newline: bool): string {
    if newline then Join(lines, NL) + [NL] else Join(lines, NL)
  }

  predicate AllFree(lines: seq<string>) {
    forall l :: l in lines ==> Free(l, NL)
  }

  /** Written out and read again, the lines lose a last blank one. */
  predicate LosesBlank(lines: seq<string>, newline: bool) {
    lines == [""] || (!newline && lines != [] && lines[|lines| - 1] == "")
  }

  lemma {:induction false} JoinEnds(lines: seq<string>)
    requires lines != [] && AllFree(lines)
    ensures EndsNewline(Join(lines, NL)) <==> |lines| > 1 && lines[|lines| - 1] == ""
    ensures Join(lines, NL) == "" <==> lines == [""]
  {
    if |lines| > 1 {
      JoinEnds(lines[1..]);
      var rest := Join(lines[1..], NL);
      var whole := lines[0] + [NL] + rest;
      assert rest != "" ==> whole[|whole| - 1] == rest[|rest| - 1];
      assert rest == "" ==> whole[|whole| - 1] == NL;
    } else {
      assert lines == [lines[0]] && lines[0] in lines;
    }
  }

  lemma {:induction false} JoinDropsBlank(lines: seq<string>)
    requires |lines| > 1 && lines[|lines| - 1] == ""
    ensures Join(lines, NL) == Join(lines[..|lines| - 1], NL) + [NL]
  {
    var init := lines[..|lines| - 1];
    if |lines| == 2 {
      assert lines[1..] == [""] && init == [lines[0]];
    } else {
      JoinDropsBlank(lines[1..]);
      assert lines[1..][..|lines| - 2] == init[1..];
    }
  }

  lemma LinesFree(text: string)
    ensures AllFree(Lines(text))
    ensures Lines(text) == [] <==> TrimNewline(text) == ""
  {
    SplitParts(TrimNewline(text), NL);
  }

  lemma PiecesFree(content: string)
    ensures AllFree(Pieces(content))
  {
    SplitParts(content, NL);
  }

  /** A text is its lines and its final newline. */
  lemma UnlinesLines(text: string)
    ensures Unlines(Lines(text), EndsNewline(text)) == text
  {
    var body := TrimNewline(text);
    JoinSplit(body, NL);
    assert EndsNewline(text) ==> body + [NL] == text;
  }

  /** What is left of lines that lose a last blank one; a lone blank line before it goes too. */
  function Shortened(lines: seq<string>): seq<string>
    requires lines != []
  {
    var init := lines[..|lines| - 1];
    if init == [""] then [] else init
  }

  /** Reading back lines that were written out: exactly a last blank line can get lost. */
  lemma LinesUnlines(lines: seq<string>, newline: bool)
    requires AllFree(lines)
    ensures var text := Unlines(lines, newline);
            if LosesBlank(lines, newline) then Lines(text) == Shortened(lines)
            else Lines(text) == lines && EndsNewline(text) == newline
  {
    var text, joined := Unlines(lines, newline), Join(lines, NL);
    if lines != [] {
      JoinEnds(lines);
      if newline {
        assert TrimNewline(text) == joined;
        if lines != [""] { SplitJoin(lines, NL); }
      } else if EndsNewline(joined) {
        JoinDropsBlank(lines);
        BlankInit(lines);
        assert TrimNewline(joined) == Join(lines[..|lines| - 1], NL);
      } else {
        if lines != [""] { SplitJoin(lines, NL); }
      }
    } else {
      assert TrimNewline(text) == "";
    }
  }

  lemma BlankInit(lines: seq<string>)
    requires AllFree(lines) && |lines| > 1
    ensures var rest := Join(lines[..|lines| - 1], NL);
            (if rest == "" then [] else Split(rest, NL)) == Shortened(lines)
  {
    var init := lines[..|lines| - 1];
    assert AllFree(init);
    JoinEnds(init);
    SplitJoin(init, NL);
  }

  // ---- the edit ----

  datatype Why = StartNotPositive | StartOutOfRange | EndOutOfRange

  /** A new text, an error, or an index out of range at run time. */
  datatype Edit = Edited(text: string) | Rejected(why: Why) | Panic

  /** Lines from+1 to to give way to the new ones. */
  function Splice(lines: seq<string>, from: nat, to: nat, pieces: seq<string>): seq<string>
    requires from <= to <= |lines|
  {
    lines[..from] + pieces + lines[to..]
  }

  /** The number of lines an edit from line a to line b replaces: none for an insertion. */
  function Replaced(a: int, b: int): nat {
    if b < a then 0 else b - a + 1
  }

  /** An edit can be carried out exactly if it starts on a line or just past the last, and ends on a line. */
  predicate InRange(text: string, a: int, b: int) {
    1 <= a <= |Lines(text)| + 1 && (b < a || b <= |Lines(text)|)
  }

  /** The lines after an edit in range. */
  function After(text: string, a: int, b: int, content: string): seq<string>
    requires InRange(text, a, b)
  {
    Splice(Lines(text), a - 1, a - 1 + Replaced(a, b), Pieces(content))
  }

  lemma SpliceFree(lines: seq<string>, from: nat, to: nat, pieces: seq<string>)
    requires from <= to <= |lines| && AllFree(lines) && AllFree(pieces)
    ensures AllFree(Splice(lines, from, to, pieces)) && AllFree(lines[from..to])
  {
  }

  /** What an edit of lines a to b of a text comes to. */
  function LineEdited(text: string, a: int, b: int, content: string): Edit {
    if a <= 0 then Rejected(StartNotPositive)
    else if a > |Lines(text)| + 1 then Rejected(StartOutOfRange)
    else if b >= a && b > |Lines(text)| + 1 then Rejected(EndOutOfRange)
    else if b >= a && b == |Lines(text)| + 1 then Panic
    else Edited(Unlines(After(text, a, b, content), EndsNewline(text)))
  }

  method ApplyLineEdit(current: string, startLine: int, endLine: int, content: string) returns (r: Edit)
    ensures r == LineEdited(current, startLine, endLine, content)
  {
    var endsNewline := EndsNewline(current);
    var body := TrimNewline(current);
    var lines := [];
    if body != "" {
      lines := Split(body, NL);
    }
    var total := |lines|;
    if startLine <= 0 {
      return Rejected(StartNotPositive);
    }
    if startLine > total + 1 {
      return Rejected(StartOutOfRange);
    }
    var result: seq<string>;
    if endLine < startLine {
      var insertAt := startLine - 1;
      if insertAt > total {
        insertAt := total;
      }
      result := lines[..insertAt];
      if content != "" {
        result := result + Split(content, NL);
      } else {
        assert result + [] == result;
      }
      result := result + lines[insertAt..];
    } else {
      if endLine > total + 1 {
        return Rejected(EndOutOfRange);
      }
      var s, e := startLine - 1, endLine;
      if e > total {
        return Panic; // lines[e:] is out of range
      }
      result := lines[..s];
      if content != "" {
        result := result + Split(content, NL);
      } else {
        assert result + [] == result;
      }
      result := result + lines[e..];
    }
    var joined := Join(result, NL);
    if endsNewline {
      joined := joined + [NL];
    }
    r := Edited(joined);
  }

  /** An edit is carried out exactly in range, and then reads back as the spliced lines unless a last blank
      line gets lost. */
  lemma EditReadsBack(text: string, a: int, b: int, content: string)
    ensures LineEdited(text, a, b, content).Edited? <==> InRange(text, a, b)
    ensures LineEdited(text, a, b, content).Panic? <==> 1 <= a <= b == |Lines(text)| + 1
    ensures LineEdited(text, a, b, content) == Rejected(StartNotPositive) <==> a < 1
    ensures LineEdited(text, a, b, content) == Rejected(StartOutOfRange) <==> |Lines(text)| + 1 < a
    ensures LineEdited(text, a, b, content) == Rejected(EndOutOfRange) <==> 1 <= a <= |Lines(text)| + 1 < b
    ensures InRange(text, a, b) ==>
              var lines, r := After(text, a, b, content), LineEdited(text, a, b, content).text;
              (Lines(r) == lines <==> !LosesBlank(lines, EndsNewline(text)))
              && (!LosesBlank(lines, EndsNewline(text)) ==> EndsNewline(r) == EndsNewline(text))
  {
    if InRange(text, a, b) {
      LinesFree(text);
      PiecesFree(content);
      SpliceFree(Lines(text), a - 1, a - 1 + Replaced(a, b), Pieces(content));
      LinesUnlines(After(text, a, b, content), EndsNewline(text));
    }
  }

  // ---- undoing an edit ----

  lemma SpliceUndo(lines: seq<string>, from: nat, to: nat, pieces: seq<string>)
    requires from <= to <= |lines|
    ensures Splice(Splice(lines, from, to, pieces), from, from + |pieces|, lines[from..to]) == lines
  {
  }

  /** The lines an edit replaces. */
  function Gone(text: string, a: int, b: int): seq<string>
    requires InRange(text, a, b)
  {
    Lines(text)[a - 1..a - 1 + Replaced(a, b)]
  }

  lemma PiecesOfJoin(lines: seq<string>)
    requires AllFree(lines) && lines != [""]
    ensures Pieces(Join(lines, NL)) == lines
  {
    if lines != [] {
      JoinEnds(lines);
      SplitJoin(lines, NL);
    }
  }

  /** The text after an edit. */
  function EditedText(text: string, a: int, b: int, content: string): string
    requires InRange(text, a, b)
  {
    Unlines(After(text, a, b, content), EndsNewline(text))
  }

  /** Putting the replaced lines back in place of the new ones, as a second edit. */
  function PutBack(text: string, a: int, b: int, content: string): Edit
    requires InRange(text, a, b)
  {
    LineEdited(EditedText(text, a, b, content), a, a + CountLines(content) - 1, Join(Gone(text, a, b), NL))
  }

  lemma PutBackRestores(text: string, a: int, b: int, content: string)
    requires InRange(text, a, b) && !LosesBlank(After(text, a, b, content), EndsNewline(text))
    requires Gone(text, a, b) != [""]
    ensures PutBack(text, a, b, content) == Edited(text)
  {
    hide Lines;
    EditReadsBack(text, a, b, content);
    UndoText(text, a, b, content, EditedText(text, a, b, content));
  }

  lemma UndoText(text: string, a: int, b: int, content: string, r: string)
    requires InRange(text, a, b) && Gone(text, a, b) != [""]
    requires Lines(r) == After(text, a, b, content) && EndsNewline(r) == EndsNewline(text)
    requires InRange(r, a, a + CountLines(content) - 1)
    ensures LineEdited(r, a, a + CountLines(content) - 1, Join(Gone(text, a, b), NL)) == Edited(text)
  {
    LinesFree(text);
    SpliceFree(Lines(text), a - 1, a - 1 + Replaced(a, b), []);
    PiecesOfJoin(Gone(text, a, b));
    SpliceUndo(Lines(text), a - 1, a - 1 + Replaced(a, b), Pieces(content));
    UnlinesLines(text);
  }

  /** Fewer lines make another text. */
  lemma FewerLines(short: seq<string>, long: seq<string>, newline: bool)
    requires AllFree(short) && AllFree(long) && |short| < |long| && long != [""]
    ensures Unlines(short, newline) != Unlines(long, newline)
  {
    JoinEnds(long);
    var u, v := Join(short, NL), Join(long, NL);
    assert u + [NL] == v + [NL] ==> (u + [NL])[..|u|] == (v + [NL])[..|v|];
    if short != [] && u == v { JoinInjective(short, long, NL); }
  }

  lemma SpliceAway(lines: seq<string>, from: nat, to: nat, pieces: seq<string>)
    requires from <= to <= |lines|
    ensures Splice(Splice(lines, from, to, pieces), from, from + |pieces|, []) == Splice(lines, from, to, [])
    ensures |Splice(lines, from, to, [])| == |lines| - (to - from)
  {
  }

  /** One blank line cannot be put back: the content for it is empty, and stands for no line. */
  lemma BlankNotPutBack(text: string, a: int, b: int, content: string)
    requires InRange(text, a, b) && !LosesBlank(After(text, a, b, content), EndsNewline(text))
    requires Gone(text, a, b) == [""]
    ensures PutBack(text, a, b, content) != Edited(text)
  {
    EditReadsBack(text, a, b, content);
    BlankDropped(text, a, b, content, EditedText(text, a, b, content));
  }

  lemma BlankDropped(text: string, a: int, b: int, content: string, r: string)
    requires InRange(text, a, b) && Gone(text, a, b) == [""]
    requires Lines(r) == After(text, a, b, content) && EndsNewline(r) == EndsNewline(text)
    ensures LineEdited(r, a, a + CountLines(content) - 1, "") != Edited(text)
  {
    hide Join, Split;
    var lines, from, to := Lines(text), a - 1, a - 1 + Replaced(a, b);
    LinesFree(text);
    SpliceFree(lines, from, to, []);
    SpliceAway(lines, from, to, Pieces(content));
    NotOneBlank(text);
    FewerLines(Splice(lines, from, to, []), lines, EndsNewline(text));
    UnlinesLines(text);
  }

  lemma NotOneBlank(text: string)
    ensures Lines(text) != [""]
  {
    JoinSplit(TrimNewline(text), NL);
  }

  /** Where a blank line got lost, the second edit leaves a final newline that was not there, or fails, or is a
      line short. */
  lemma LostNotPutBack(text: string, a: int, b: int, content: string)
    requires InRange(text, a, b) && LosesBlank(After(text, a, b, content), EndsNewline(text))
    ensures PutBack(text, a, b, content) != Edited(text)
  {
    hide LosesBlank;
    if After(text, a, b, content) == [""] {
      LoneBlankLost(text, a, b, content);
    } else {
      GainsNewline(text, a, b, content);
      KeepsNewline(EditedText(text, a, b, content), a, a + CountLines(content) - 1, Join(Gone(text, a, b), NL));
    }
  }

  lemma GainsNewline(text: string, a: int, b: int, content: string)
    requires InRange(text, a, b) && LosesBlank(After(text, a, b, content), EndsNewline(text))
    requires After(text, a, b, content) != [""]
    ensures EndsNewline(EditedText(text, a, b, content)) && !EndsNewline(text)
  {
    LinesFree(text);
    PiecesFree(content);
    SpliceFree(Lines(text), a - 1, a - 1 + Replaced(a, b), Pieces(content));
    JoinEnds(After(text, a, b, content));
  }

  lemma KeepsNewline(text: string, a: int, b: int, content: string)
    requires EndsNewline(text)
    ensures var r := LineEdited(text, a, b, content); r.Edited? ==> EndsNewline(r.text)
  {
  }

  /** What remains is one blank line of the text itself, and it is gone when the text is read again. */
  lemma LoneBlankLost(text: string, a: int, b: int, content: string)
    requires InRange(text, a, b) && After(text, a, b, content) == [""]
    ensures PutBack(text, a, b, content) != Edited(text)
  {
    var lines, gone := Lines(text), Gone(text, a, b);
    if content != "" { PiecesEnd(content); }
    OnlyBlank(lines, a - 1, a - 1 + Replaced(a, b), Pieces(content));
    OpenEnd(text);
    NotOneBlank(text);
    LinesUnlines([""], EndsNewline(text));
    assert Lines(EditedText(text, a, b, content)) == [];
    if a == 1 { LoneBlankAtEnd(text, b); }
  }

  /** One blank line is left: before what was replaced or after it. */
  lemma OnlyBlank(lines: seq<string>, from: nat, to: nat, pieces: seq<string>)
    requires from <= to <= |lines| && pieces != [""] && Splice(lines, from, to, pieces) == [""]
    ensures pieces == [] && (from == 1 || (from == 0 && lines == lines[from..to] + [""]))
  {
    var after := Splice(lines, from, to, pieces);
    assert |after| == from + |pieces| + |lines| - to;
    assert |pieces| == 1 ==> after == pieces;
    if from == 0 && pieces == [] { assert after == lines[to..]; }
  }

  lemma LoneBlankAtEnd(text: string, b: int)
    requires InRange(text, 1, b) && After(text, 1, b, "") == [""]
    requires Lines(text) == Gone(text, 1, b) + [""] && EndsNewline(text) && Lines(text) != [""]
    ensures PutBack(text, 1, b, "") != Edited(text)
  {
    hide Join, Split;
    var gone, r := Gone(text, 1, b), EditedText(text, 1, b, "");
    LinesFree(text);
    LinesUnlines([""], true);
    PiecesBack(gone);
    PiecesFree(Join(gone, NL));
    FewerLines(Pieces(Join(gone, NL)), Lines(text), true);
    UnlinesLines(text);
    assert After(r, 1, 0, Join(gone, NL)) == Pieces(Join(gone, NL));
  }

  lemma PiecesBack(lines: seq<string>)
    requires AllFree(lines)
    ensures |Pieces(Join(lines, NL))| <= |lines|
  {
    if lines != [""] { PiecesOfJoin(lines); }
  }

  /** An edit is undone by putting the replaced lines back in place of the new ones, if and only if no blank
      line got lost and the replaced lines are not one blank line, which no content can stand for. */
  lemma EditUndone(text: string, a: int, b: int, content: string)
    requires InRange(text, a, b)
    ensures LineEdited(text, a, b, content) == Edited(EditedText(text, a, b, content))
    ensures PutBack(text, a, b, content) == Edited(text)
            <==> !LosesBlank(After(text, a, b, content), EndsNewline(text)) && Gone(text, a, b) != [""]
  {
    hide PutBack, LosesBlank;
    if LosesBlank(After(text, a, b, content), EndsNewline(text)) { LostNotPutBack(text, a, b, content); }
    else if Gone(text, a, b) == [""] { BlankNotPutBack(text, a, b, content); }
    else { PutBackRestores(text, a, b, content); }
  }

  /** An insertion loses a blank line in one case: no final newline, an insertion at the end, and content that
      ends in a newline. */
  predicate AtOpenEnd(text: string, k: int, content: string) {
    !EndsNewline(text) && k == |Lines(text)| + 1 && EndsNewline(content)
  }

  lemma InsertLosesIff(text: string, k: int, b: int, content: string)
    requires 1 <= k <= |Lines(text)| + 1 && b < k && content != ""
    ensures LosesBlank(After(text, k, b, content), EndsNewline(text)) <==> AtOpenEnd(text, k, content)
  {
    OpenEnd(text);
    PiecesEnd(content);
  }

  /** Inserting content before line k and deleting as many lines as it has gives the text back, final newline
      included, in every case but that one, in which the deletion fails. */
  lemma InsertThenDelete(text: string, k: int, b: int, content: string)
    requires 1 <= k <= |Lines(text)| + 1 && b < k && content != ""
    ensures LineEdited(text, k, b, content).Edited?
    ensures var r := LineEdited(LineEdited(text, k, b, content).text, k, k + CountLines(content) - 1, "");
            if AtOpenEnd(text, k, content) then !r.Edited? else r == Edited(text)
  {
    InsertLosesIff(text, k, b, content);
    if AtOpenEnd(text, k, content) {
      InsertLost(text, k, b, content);
    } else {
      assert Gone(text, k, b) == [];
      PutBackRestores(text, k, b, content);
    }
  }

  lemma InsertLost(text: string, k: int, b: int, content: string)
    requires 1 <= k <= |Lines(text)| + 1 && b < k && content != ""
    requires LosesBlank(After(text, k, b, content), EndsNewline(text))
    ensures var r := LineEdited(text, k, b, content);
            r.Edited? && |Lines(r.text)| < |Lines(text)| + CountLines(content)
  {
    LinesFree(text);
    PiecesFree(content);
    SpliceFree(Lines(text), k - 1, k - 1, Pieces(content));
    LinesUnlines(After(text, k, b, content), EndsNewline(text));
  }

  lemma PiecesEnd(content: string)
    requires content != ""
    ensures var pieces := Pieces(content);
            pieces != [] && pieces != [""] && (pieces[|pieces| - 1] == "" <==> EndsNewline(content))
  {
    JoinSplit(content, NL);
    PiecesFree(content);
    JoinEnds(Pieces(content));
  }

  lemma OpenEnd(text: string)
    ensures var lines := Lines(text); !EndsNewline(text) && lines != [] ==> lines[|lines| - 1] != ""
  {
    if !EndsNewline(text) && text != "" { PiecesEnd(text); }
  }
}
