/** Runs that end in a definite answer, success or a permanent error, whichever of their calls failed on the way. A
    failed call ends its handler with a 5xx status, apart from a listing while the repositories are walked; so such a
    run comes to what a fault-free one does, except that a bookmark whose listing failed is not dropped
    (events_sub.go, sessions_http.go, client_jj.go). */
module Conclusions {
  import opened Names
  import opened Stores
  import opened Handlers
  import opened BigStep

  // ---- a failed call ----

  /** The calls a run makes. */
  ghost function Calls(w: World, pc: Pc, evs: seq<Ev>): seq<Req>
    decreases |evs|
  {
    if evs == [] || pc.End? then []
    else [Request(pc)] + Calls(After(w, Request(pc), evs[0]), Feed(pc, evs[0].resp), evs[1..])
  }

  /** The status a failed call is answered with. */
  function Trouble(q: Req): Status {
    Fail(if q.Claim? then 500 else 502)
  }

  lemma FailedStep(pc: Pc)
    requires !pc.End? && !Local(Request(pc)) && !Request(pc).ListBookmarks?
    ensures Feed(pc, Failed) == Stop(Trouble(Request(pc)))
  {
  }

  lemma FailedProbe(t: Triple, sid: string, k: Kont)
    ensures Feed(CreatedProbe(t, sid, k), Failed) == Stop(Fail(502))
  {
  }

  /** A failed call ends its handler at once with a 5xx status, whoever makes it; a listing of bookmarks aside. */
  lemma {:induction false} FailureStops(w: World, pc: Pc, evs: seq<Ev>, w': World, o: Outcome, i: nat)
    requires Path(w, pc, evs, w', End(o)) && i < |evs| && evs[i].resp.Failed?
    ensures |Calls(w, pc, evs)| == |evs|
    ensures !Calls(w, pc, evs)[i].ListBookmarks? ==>
              i == |evs| - 1 && o == Status(Trouble(Calls(w, pc, evs)[i]))
    decreases |evs|
  {
    hide Feed, Request, After;
    CallsLength(w, pc, evs, w', o);
    var w1, next := After(w, Request(pc), evs[0]), Feed(pc, evs[0].resp);
    if i > 0 {
      FailureStops(w1, next, evs[1..], w', o, i - 1);
    } else if !Request(pc).ListBookmarks? {
      FailedStep(pc);
    }
  }

  lemma {:induction false} CallsLength(w: World, pc: Pc, evs: seq<Ev>, w': World, o: Outcome)
    requires Path(w, pc, evs, w', End(o))
    ensures |Calls(w, pc, evs)| == |evs|
    decreases |evs|
  {
    hide Feed, Request, After, Legal;
    if evs != [] { CallsLength(After(w, Request(pc), evs[0]), Feed(pc, evs[0].resp), evs[1..], w', o); }
  }

  // ---- runs to a definite answer ----

  /** Not an error after which the caller tries again. */
  predicate Definite(o: Outcome) {
    o.Status? && o.st.Fail? ==> o.st.code < 500
  }

  /** A run to such an answer, whichever calls failed. */
  ghost predicate Concludes(w: World, pc: Pc, w': World, o: Outcome) {
    Definite(o) && exists evs: seq<Ev> :: Path(w, pc, evs, w', End(o))
  }

  lemma Advanced(w: World, pc: Pc, w': World, o: Outcome) returns (e: Ev)
    requires Concludes(w, pc, w', o) && !pc.End?
    ensures Legal(w, Request(pc), e) && Concludes(After(w, Request(pc), e), Feed(pc, e.resp), w', o)
  {
    hide Feed, Request, After, Legal;
    var evs: seq<Ev> :| Path(w, pc, evs, w', End(o));
    e := evs[0];
    assert Path(After(w, Request(pc), e), Feed(pc, e.resp), evs[1..], w', End(o));
  }

  lemma Over(w: World, o: Outcome, w': World, o': Outcome)
    requires Concludes(w, End(o), w', o')
    ensures w' == w && o' == o && Definite(o)
  {
  }

  /** Outside a walk every call of such a run has worked. */
  lemma Worked(w: World, pc: Pc, w': World, o: Outcome) returns (a: Resp)
    requires Concludes(w, pc, w', o) && !pc.End? && !pc.TreeScan?
    ensures Answers(w, Request(pc), a) && Concludes(Effect(w, Request(pc)), Feed(pc, a), w', o)
  {
    hide Concludes, Answers, Effect;
    var e := Advanced(w, pc, w', o);
    a := e.resp;
    if a.Failed? {
      if pc.CreatedProbe? { FailedProbe(pc.t, pc.sid, pc.k); } else { FailedStep(pc); }
      Over(After(w, Request(pc), e), Feed(pc, a).out, w', o);
    }
  }

  // ---- GetRepoTree ----

  /** All repositories, each with its bookmarks or, where the listing failed, with none. */
  predicate Seen(w: World, tree: Tree) {
    tree.Keys == w.repos.Keys && forall k :: k in tree ==> tree[k] == w.repos[k].bms.Keys || tree[k] == {}
  }

  predicate PartSeen(w: World, todo: seq<Key>, tree: Tree) {
    && (forall k :: k in tree ==> k in w.repos && (tree[k] == w.repos[k].bms.Keys || tree[k] == {}))
    && (forall k :: k in w.repos ==> k in tree || k in todo)
    && (forall k :: k in todo ==> k in w.repos)
  }

  lemma {:induction false} ScanConcludes(w: World, use: Use, todo: seq<Key>, tree: Tree, w': World, o: Outcome)
      returns (seen: Tree)
    requires PartSeen(w, todo, tree) && Concludes(w, Scan(use, todo, tree), w', o)
    ensures Seen(w, seen) && Concludes(w, UseTree(use, seen), w', o)
    decreases |todo|
  {
    hide Concludes;
    if todo == [] {
      seen := tree;
    } else {
      assert todo[0] in todo;
      var e := Advanced(w, Scan(use, todo, tree), w', o);
      seen := ScanConcludes(w, use, todo[1..], tree[todo[0] := if e.resp.Bms? then e.resp.bms else {}], w', o);
    }
  }

  lemma TreeConcludes(w: World, use: Use, w': World, o: Outcome) returns (seen: Tree)
    requires Concludes(w, TreeList(use), w', o)
    ensures Seen(w, seen) && Concludes(w, UseTree(use, seen), w', o)
  {
    hide Concludes;
    var a := Worked(w, TreeList(use), w', o);
    seen := ScanConcludes(w, use, a.keys, map[], w', o);
  }

  // ---- EnsureBookmark, bindRow, ensureCreated ----

  /** A bookmark whose listing failed is created again, which leaves it alone. */
  lemma EnsureConcludes(w: World, t: Triple, rev: Rev, goal: Goal, w': World, o: Outcome)
    requires Concludes(w, TreeList(Ensure(t, rev, goal)), w', o)
    ensures if t.key !in w.repos then Concludes(w, Aborted(goal, 404), w', o)
            else AnchorStatus(w, t, rev).Ok? && Concludes(Anchor(w, t, rev), Anchored(t, goal), w', o)
  {
    hide Concludes;
    var seen := TreeConcludes(w, Ensure(t, rev, goal), w', o);
    if t.key in w.repos && !Shows(seen, t) { CreateWorks(w, t, rev, goal, w', o); }
  }

  lemma CreateWorks(w: World, t: Triple, rev: Rev, goal: Goal, w': World, o: Outcome)
    requires Concludes(w, BmCreate(t, rev, goal), w', o)
    ensures AnchorStatus(w, t, rev).Ok? && Concludes(Anchor(w, t, rev), Anchored(t, goal), w', o)
  {
    hide Concludes;
    var a := Worked(w, BmCreate(t, rev, goal), w', o);
    if !a.Done? { Over(Anchor(w, t, rev), Status(Fail(502)), w', o); }
  }

  lemma BindConcludes(w: World, t: Triple, sid: string, k: Kont, w': World, o: Outcome)
    requires Concludes(w, BindInsert(t, sid, k), w', o)
    ensures Concludes(BindTo(w, t, sid), Resume(k, Ok), w', o)
  {
    hide Concludes;
    var a := Worked(w, BindInsert(t, sid, k), w', o);
    if !Taken(w.rows, t, sid) {
      var a1 := Worked(Effect(w, InsertRow(t, sid)), BindManage(t.key, k), w', o);
    }
  }

  lemma CreateConcludes(w: World, t: Triple, sid: string, k: Kont, w': World, o: Outcome)
    requires Concludes(w, CreatedLookup(t, sid, k), w', o)
    ensures CreateStatus(w, t, sid).Ok? && Concludes(Create(w, t, sid), Resume(k, Ok), w', o)
  {
    hide Concludes;
    var a := Worked(w, CreatedLookup(t, sid, k), w', o);
    if sid !in w.rows.Values {
      var w1 := Effect(w, PostRepo(t.key));
      var a1 := Worked(w, CreatedRepo(t, sid, k), w', o);
      var a2 := Worked(w1, CreatedProbe(t, sid, k), w', o);
      EnsureConcludes(w1, t, Tip(MAIN), Bind(sid, k), w', o);
      BindConcludes(Anchor(w1, t, Tip(MAIN)), t, sid, k, w', o);
    }
  }

  // ---- ensureForked, ensureRenamed ----

  lemma BranchConcludes(w: World, t: Triple, sid: string, bm: string, w': World, o: Outcome)
    requires Concludes(w, TreeList(Ensure(t, Tip(bm), Bind(sid, Return))), w', o)
    ensures w' == Ensured(w, t, Tip(bm), sid) && o == Status(AnchorStatus(w, t, Tip(bm)))
  {
    hide Concludes;
    EnsureConcludes(w, t, Tip(bm), Bind(sid, Return), w', o);
    if t.key !in w.repos {
      Over(w, Status(Fail(404)), w', o);
    } else {
      BindConcludes(Anchor(w, t, Tip(bm)), t, sid, Return, w', o);
      Over(Ensured(w, t, Tip(bm), sid), Status(Ok), w', o);
    }
  }

  lemma ForkConcludes(w: World, t: Triple, sid: string, parentSid: string, w': World, o: Outcome)
    requires Concludes(w, ForkedLookup(t, sid, parentSid), w', o)
    ensures w' == Fork(w, t, sid, parentSid) && o == Status(ForkStatus(w, t, sid, parentSid))
  {
    hide Concludes;
    var a := Worked(w, ForkedLookup(t, sid, parentSid), w', o);
    if sid in w.rows.Values {
      Over(w, Status(Ok), w', o);
    } else if Parse(parentSid).None? {
      BranchConcludes(w, t, sid, MAIN, w', o);
    } else {
      var p := Parse(parentSid).value;
      if p.key != t.key {
        Over(w, Status(Fail(400)), w', o);
      } else {
        var a1 := Worked(w, ForkedParent(t, sid, p), w', o);
        ParentConcludes(w, t, sid, p, a1, w', o);
      }
    }
  }

  lemma ParentConcludes(w: World, t: Triple, sid: string, p: Triple, a: Resp, w': World, o: Outcome)
    requires Answers(w, GetRow(p), a) && Concludes(w, Feed(ForkedParent(t, sid, p), a), w', o)
    ensures w' == ForkFrom(w, t, sid, p) && o == Status(ForkFromStatus(w, t, p))
  {
    hide Concludes;
    if p in w.rows {
      BranchConcludes(w, t, sid, p.bm, w', o);
    } else {
      CreateConcludes(w, p, Naming(p), Inherit(t, sid, p.bm), w', o);
      BranchConcludes(Create(w, p, Naming(p)), t, sid, p.bm, w', o);
    }
  }

  /** The bookmark is dropped, or stays where its listing failed. */
  lemma DropConcludes(w: World, t: Triple, after: DropGoal, w': World, o: Outcome) returns (w1: World)
    requires Concludes(w, TreeList(Drop(t, after)), w', o)
    ensures w1 == w || w1 == Effect(w, DropBookmark(t))
    ensures Concludes(w1, Dropped(t, after), w', o)
  {
    hide Concludes;
    var seen := TreeConcludes(w, Drop(t, after), w', o);
    w1 := w;
    if Shows(seen, t) {
      var a := Worked(w, DropCall(t, after), w', o);
      w1 := Effect(w, DropBookmark(t));
    }
  }

  /** The row moved and the cache entry gone. */
  function Moved(w: World, from: Triple, to: Triple): World {
    Effect(Effect(w, RenameRow(from, to, Naming(to))), CacheEvict(Naming(from)))
  }

  lemma MoveConcludes(w: World, from: Triple, to: Triple, w': World, o: Outcome)
    requires from in w.rows && Concludes(w, RenameMove(from, to), w', o)
    ensures o == Status(Ok)
    ensures if Taken(w.rows - {from}, to, Naming(to)) then w' == w
            else w' == Moved(w, from, to) || w' == Effect(Moved(w, from, to), DropBookmark(from))
  {
    hide Concludes;
    var a := Worked(w, RenameMove(from, to), w', o);
    if Taken(w.rows - {from}, to, Naming(to)) {
      Over(w, Status(Ok), w', o);
    } else {
      var w1 := Effect(w, RenameRow(from, to, Naming(to)));
      var a1 := Worked(w1, RenameEvict(from), w', o);
      var w2 := DropConcludes(Moved(w, from, to), from, Finish, w', o);
      Over(w2, Status(Ok), w', o);
    }
  }

  lemma RenameConcludes(w: World, from: Triple, to: Triple, w': World, o: Outcome)
    requires from in w.rows && Concludes(w, RenameGet(from, to), w', o)
    ensures o == Status(AnchorStatus(w, to, Tip(from.bm)))
    ensures var w1 := Anchor(w, to, Tip(from.bm));
            if o != Status(Ok) then w' == w
            else if Taken(w.rows - {from}, to, Naming(to)) then w' == w1
            else w' == Moved(w1, from, to) || w' == Effect(Moved(w1, from, to), DropBookmark(from))
  {
    hide Concludes;
    var a := Worked(w, RenameGet(from, to), w', o);
    EnsureConcludes(w, to, Tip(from.bm), Move(from), w', o);
    if to.key !in w.repos {
      Over(w, Status(Fail(404)), w', o);
    } else {
      MoveConcludes(Anchor(w, to, Tip(from.bm)), from, to, w', o);
    }
  }

  lemma DeleteConcludes(w: World, t: Triple, sid: string, w': World, o: Outcome)
    requires Concludes(w, DeletedLookup(t, sid), w', o)
    ensures o == Status(Ok)
    ensures if sid !in w.rows.Values then w' == w
            else w' == Delete(w, t, sid) || w' == Effect(Effect(w, DeleteRow(t)), CacheEvict(sid))
  {
    hide Concludes;
    var a := Worked(w, DeletedLookup(t, sid), w', o);
    if sid !in w.rows.Values {
      Over(w, Status(Ok), w', o);
    } else {
      var w1 := DropConcludes(w, t, Unmap(sid), w', o);
      UnmapConcludes(w1, t, sid, w', o);
    }
  }

  lemma UnmapConcludes(w: World, t: Triple, sid: string, w': World, o: Outcome)
    requires Concludes(w, UnmapRow(t, sid), w', o)
    ensures w' == Effect(Effect(w, DeleteRow(t)), CacheEvict(sid)) && o == Status(Ok)
  {
    hide Concludes;
    var a := Worked(w, UnmapRow(t, sid), w', o);
    var a1 := Worked(Effect(w, DeleteRow(t)), UnmapEvict(sid), w', o);
    Over(Effect(Effect(w, DeleteRow(t)), CacheEvict(sid)), Status(Ok), w', o);
  }

  /** Whichever calls failed, a definite answer to an event is the one a fault-free run gives. */
  lemma EventConcludes(w: World, e: Event, w': World, o: Outcome)
    requires Concludes(w, OnEvent(e), w', o)
    ensures o == Status(HandleStatus(w, e))
    ensures OnEvent(e).CreatedLookup? || OnEvent(e).ForkedLookup? || o != Status(Ok) ==> w' == Handle(w, e)
  {
    hide Concludes;
    var pc := OnEvent(e);
    if pc.CreatedLookup? {
      CreateConcludes(w, pc.t, pc.sid, Return, w', o);
      Over(Create(w, pc.t, pc.sid), Status(Ok), w', o);
    } else if pc.ForkedLookup? {
      ForkConcludes(w, pc.t, pc.sid, pc.parentSid, w', o);
    } else if pc.RenameGet? {
      RenamedConcludes(w, pc.from, pc.to, w', o);
    } else if pc.DeletedLookup? {
      DeleteConcludes(w, pc.t, pc.sid, w', o);
    } else {
      Over(w, pc.out, w', o);
    }
  }

  lemma RenamedConcludes(w: World, from: Triple, to: Triple, w': World, o: Outcome)
    requires Concludes(w, RenameGet(from, to), w', o)
    ensures o == Status(RenameStatus(w, from, to))
    ensures from !in w.rows || o != Status(Ok) ==> w' == Rename(w, from, to)
  {
    hide Concludes;
    if from in w.rows {
      RenameConcludes(w, from, to, w', o);
    } else {
      var a := Worked(w, RenameGet(from, to), w', o);
      CreateConcludes(w, to, Naming(to), Return, w', o);
      Over(Create(w, to, Naming(to)), Status(Ok), w', o);
    }
  }
}
