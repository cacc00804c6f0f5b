/** Reading a file in pages: the window of the `read` tool (tools.go). */
module Paging {
  import opened Strs
  import opened Names
  import opened LineEdit

  /** A line as listed, with its number counted from 1. */
  datatype Numbered = Numbered(num: nat, line: string)

  /** A window of the file: the lines listed, and where to continue if it was cut short. */
  datatype Reply = PastEnd(total: nat) | Page(shown: seq<Numbered>, total: nat, next: Option<nat>)

  /** The lines `read` counts: unlike the editor it takes off one last empty part, once. */
  function Listed(text: string): seq<string> {
    var lines := Split(text, NL);
    if lines[|lines| - 1] == "" then lines[..|lines| - 1] else lines
  }

  /** Lines lo+1 to hi with their numbers. */
  function Window(lines: seq<string>, lo: nat, hi: nat): seq<Numbered>
    requires lo <= hi <= |lines|
  {
    seq(hi - lo, k requires 0 <= k < hi - lo => Numbered(lo + k + 1, lines[lo + k]))
  }

  /** The reply to a read from a line on, of at most limit lines if limit is positive. */
  function ReplyTo(lines: seq<string>, offset: int, limit: int): Reply {
    var lo: nat := if offset < 1 then 0 else offset - 1;
    if lo > |lines| then PastEnd(|lines|)
    else if 0 < limit < |lines| - lo then Page(Window(lines, lo, lo + limit), |lines|, Some(lo + limit + 1))
    else Page(Window(lines, lo, |lines|), |lines|, None)
  }

  /** A reply to a read of a file of these lines shows, from the line asked for or the first, as many lines as there are
      up to the limit, each with its number, and says where to go on if and only if lines are left. The read is past the
      end if and only if the line asked for is neither there nor the one after the last. */
  predicate Shows(lines: seq<string>, offset: int, limit: int, r: Reply) {
    var first := if offset < 1 then 1 else offset;
    var left := |lines| + 1 - first;
    && r.total == |lines| && (r.PastEnd? <==> left < 0)
    && (r.Page? ==>
          && |r.shown| == (if 0 < limit < left then limit else left)
          && (forall k :: 0 <= k < |r.shown| ==> r.shown[k] == Numbered(first + k, lines[first - 1 + k]))
          && r.next == if |r.shown| < left then Some(first + |r.shown|) else None)
  }

  lemma ReplyShows(lines: seq<string>, offset: int, limit: int)
    ensures Shows(lines, offset, limit, ReplyTo(lines, offset, limit))
  {
  }

  method Read(text: string, offset: int, limit: int) returns (r: Reply)
    ensures r == ReplyTo(Listed(text), offset, limit) && Shows(Listed(text), offset, limit, r)
  {
    hide Shows;
    ReplyShows(Listed(text), offset, limit);
    var from := offset;
    if from < 1 {
      from := 1;
    }
    var lines := Split(text, NL);
    if |lines| > 0 && lines[|lines| - 1] == "" {
      lines := lines[..|lines| - 1];
    }
    var startIdx := from - 1;
    if startIdx > |lines| {
      return PastEnd(|lines|);
    }
    var endIdx, truncated := |lines|, false;
    if limit > 0 {
      var want := startIdx + limit;
      if want < endIdx {
        endIdx := want;
        truncated := true;
      }
    }
    var shown: seq<Numbered> := [];
    for i := startIdx to endIdx
      invariant shown == Window(lines, startIdx, i)
    {
      shown := shown + [Numbered(i + 1, lines[i])];
      assert shown == Window(lines, startIdx, i + 1);
    }
    r := Page(shown, |lines|, if truncated then Some(endIdx + 1) else None);
  }

  /** What a reader sees who follows next_offset with the same limit. */
  function Follow(lines: seq<string>, offset: nat, limit: int): seq<Numbered>
    decreases |lines| + 1 - offset
  {
    var r := ReplyTo(lines, offset, limit);
    if r.PastEnd? then []
    else if r.next.None? then r.shown
    else if offset < r.next.value <= |lines| then r.shown + Follow(lines, r.next.value, limit)
    else r.shown
  }

  /** The number of reads it takes. */
  function Reads(lines: seq<string>, offset: nat, limit: int): nat
    decreases |lines| + 1 - offset
  {
    var r := ReplyTo(lines, offset, limit);
    if r.Page? && r.next.Some? && offset < r.next.value <= |lines| then 1 + Reads(lines, r.next.value, limit) else 1
  }

  /** Each page but the last is full, and the next one starts right behind it, on a line that exists. */
  lemma NextIsBehind(lines: seq<string>, offset: nat, limit: int)
    requires 1 <= offset <= |lines| + 1
    ensures var r := ReplyTo(lines, offset, limit);
            r.Page? && (r.next.Some? ==> r.next.value == offset + |r.shown| && |r.shown| == limit
                                         && offset < r.next.value <= |lines|)
  {
  }

  /** Following next_offset lists every line from the first one asked for, once, in order, rightly numbered. */
  lemma {:induction false} FollowFrom(lines: seq<string>, offset: nat, limit: int)
    requires 1 <= offset <= |lines| + 1
    ensures Follow(lines, offset, limit) == Window(lines, offset - 1, |lines|)
    decreases |lines| - offset
  {
    NextIsBehind(lines, offset, limit);
    var r := ReplyTo(lines, offset, limit);
    if r.next.Some? { FollowFrom(lines, r.next.value, limit); }
  }

  /** The whole file, page by page: every line once, in order, with its number, whatever the limit. */
  lemma PagesListEveryLine(text: string, limit: int)
    ensures var seen := Follow(Listed(text), 1, limit);
            && |seen| == |Listed(text)|
            && forall k :: 0 <= k < |seen| ==> seen[k] == Numbered(k + 1, Listed(text)[k])
  {
    FollowFrom(Listed(text), 1, limit);
  }

  /** It stops after as many reads as there are full pages before the last one, plus one. */
  lemma {:induction false} ReadsExactly(lines: seq<string>, offset: nat, limit: int)
    requires 1 <= offset <= |lines| + 1 && 0 < limit
    ensures Reads(lines, offset, limit) == 1 || (Reads(lines, offset, limit) - 1) * limit < |lines| + 1 - offset
    ensures |lines| + 1 - offset <= Reads(lines, offset, limit) * limit
    decreases |lines| - offset
  {
    NextIsBehind(lines, offset, limit);
    var r := ReplyTo(lines, offset, limit);
    if r.next.Some? {
      ReadsExactly(lines, r.next.value, limit);
      var n := Reads(lines, r.next.value, limit);
      assert Reads(lines, offset, limit) == n + 1;
      assert (n + 1) * limit == n * limit + limit;
      assert (n - 1) * limit == n * limit - limit;
    }
  }

  /** The line numbers `read` shows are the ones `edit` takes, in every file but one: a single newline is one
      line to the reader and none to the editor. */
  lemma NumbersAgreeIff(text: string)
    ensures Listed(text) == Lines(text) <==> text != [NL]
  {
    if EndsNewline(text) {
      SplitLastNewline(TrimNewline(text));
      assert TrimNewline(text) + [NL] == text;
    } else if text != "" {
      PiecesEnd(text);
    }
  }

  lemma SplitLastNewline(body: string)
    ensures Split(body + [NL], NL) == Split(body, NL) + [""]
  {
    var lines := Split(body, NL) + [""];
    JoinSplit(body, NL);
    SplitParts(body, NL);
    JoinDropsBlank(lines);
    assert lines[..|lines| - 1] == Split(body, NL);
    SplitJoin(lines, NL);
  }
}
