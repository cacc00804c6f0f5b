/** One handler running undisturbed. `Finishes` relates the start of a fault-free run to its end,
    `Cut` to any state a run stopped short leaves behind. The functions say what a fault-free run of
    each routine amounts to; the lemmas connect them to the runs, call by call. */
module BigStep {
  import opened Names
  import opened Stores
  import opened Handlers

  ghost predicate Path(w: World, pc: Pc, evs: seq<Ev>, w': World, pc': Pc)
    decreases |evs|
  {
    if evs == [] then w' == w && pc' == pc
    else !pc.End? && Legal(w, Request(pc), evs[0])
         && Path(After(w, Request(pc), evs[0]), Feed(pc, evs[0].resp), evs[1..], w', pc')
  }

  predicate FaultFree(evs: seq<Ev>) {
    forall e :: e in evs ==> !e.resp.Failed?
  }

  ghost predicate Finishes(w: World, pc: Pc, w': World, o: Outcome) {
    exists evs: seq<Ev> :: FaultFree(evs) && Path(w, pc, evs, w', End(o))
  }

  /** The handler stopped somewhere: after some calls that worked, and possibly in one that failed. */
  ghost predicate Cut(w: World, pc: Pc, w': World) {
    exists evs: seq<Ev>, pc': Pc :: Path(w, pc, evs, w', pc') && (evs == [] || FaultFree(evs[..|evs| - 1]))
  }

  lemma PathStep(w: World, pc: Pc, evs: seq<Ev>, w': World, o: Outcome)
    requires Path(w, pc, evs, w', End(o)) && !pc.End?
    ensures evs != [] && evs[0] in evs && Legal(w, Request(pc), evs[0])
    ensures Path(After(w, Request(pc), evs[0]), Feed(pc, evs[0].resp), evs[1..], w', End(o))
  {
    hide Legal, Request, After, Feed;
  }

  lemma PathCons(w: World, pc: Pc, e: Ev, evs: seq<Ev>, w': World, o: Outcome)
    requires !pc.End? && Legal(w, Request(pc), e) && Path(After(w, Request(pc), e), Feed(pc, e.resp), evs, w', End(o))
    ensures Path(w, pc, [e] + evs, w', End(o))
  {
    hide Legal, Request, After, Feed;
    assert ([e] + evs)[1..] == evs;
  }

  lemma PathEnd(w: World, o: Outcome, evs: seq<Ev>, w': World, o': Outcome)
    requires Path(w, End(o), evs, w', End(o'))
    ensures evs == [] && w' == w && o' == o
  {
  }

  lemma Stepped(w: World, pc: Pc, w': World, o: Outcome) returns (a: Resp)
    requires Finishes(w, pc, w', o) && !pc.End?
    ensures Answers(w, Request(pc), a)
    ensures Finishes(Effect(w, Request(pc)), Feed(pc, a), w', o)
  {
    var evs: seq<Ev> :| FaultFree(evs) && Path(w, pc, evs, w', End(o));
    a := evs[0].resp;
    assert evs[0] in evs;
    assert FaultFree(evs[1..]);
    assert Path(Effect(w, Request(pc)), Feed(pc, a), evs[1..], w', End(o));
  }

  lemma Ended(w: World, o: Outcome, w': World, o': Outcome)
    requires Finishes(w, End(o), w', o')
    ensures w' == w && o' == o
  {
  }

  lemma CutStepped(w: World, pc: Pc, w': World)
    requires Cut(w, pc, w')
    ensures w' == w || (!pc.End? && (w' == Effect(w, Request(pc)) ||
              exists a :: Answers(w, Request(pc), a) && Cut(Effect(w, Request(pc)), Feed(pc, a), w')))
  {
    hide Feed, Request, Effect, Answers;
    var evs: seq<Ev>, pc': Pc :| Path(w, pc, evs, w', pc') && (evs == [] || FaultFree(evs[..|evs| - 1]));
    if |evs| == 1 {
      assert Path(After(w, Request(pc), evs[0]), Feed(pc, evs[0].resp), evs[1..], w', pc');
    } else if |evs| > 1 {
      var tail, a := evs[1..], evs[0].resp;
      assert evs[0] in evs[..|evs| - 1];
      assert tail[..|tail| - 1] == evs[..|evs| - 1][1..];
      assert Path(Effect(w, Request(pc)), Feed(pc, a), tail, w', pc');
      assert Cut(Effect(w, Request(pc)), Feed(pc, a), w');
    }
  }

  // ---- GetRepoTree ----

  function FullTree(w: World): Tree {
    map k | k in w.repos :: w.repos[k].bms.Keys
  }

  /** The part of the listing fetched so far is right, and the rest is still to come. */
  predicate PartTree(w: World, todo: seq<Key>, tree: Tree) {
    && (forall k :: k in tree ==> k in w.repos && tree[k] == w.repos[k].bms.Keys)
    && (forall k :: k in w.repos ==> k in tree || k in todo)
    && (forall k :: k in todo ==> k in w.repos)
  }

  lemma {:induction false} ScanFinishes(w: World, use: Use, todo: seq<Key>, tree: Tree, w': World, o: Outcome)
    requires PartTree(w, todo, tree) && Finishes(w, Scan(use, todo, tree), w', o)
    ensures Finishes(w, UseTree(use, FullTree(w)), w', o)
    decreases |todo|
  {
    if todo == [] {
      assert tree == FullTree(w);
    } else {
      assert todo[0] in todo;
      var a := Stepped(w, Scan(use, todo, tree), w', o);
      ScanFinishes(w, use, todo[1..], tree[todo[0] := a.bms], w', o);
    }
  }

  lemma TreeFinishes(w: World, use: Use, w': World, o: Outcome)
    requires Finishes(w, TreeList(use), w', o)
    ensures Finishes(w, UseTree(use, FullTree(w)), w', o)
  {
    var a := Stepped(w, TreeList(use), w', o);
    ScanFinishes(w, use, a.keys, map[], w', o);
  }

  lemma {:induction false} ScanCut(w: World, use: Use, todo: seq<Key>, tree: Tree, w': World)
    requires PartTree(w, todo, tree) && Cut(w, Scan(use, todo, tree), w')
    ensures w' == w || Cut(w, UseTree(use, FullTree(w)), w')
    decreases |todo|
  {
    hide Cut;
    if todo == [] {
      assert tree == FullTree(w);
    } else {
      assert todo[0] in todo;
      var pc := Scan(use, todo, tree);
      CutStepped(w, pc, w');
      if w' != w {
        var a :| Answers(w, Request(pc), a) && Cut(Effect(w, Request(pc)), Feed(pc, a), w');
        ScanCut(w, use, todo[1..], tree[todo[0] := a.bms], w');
      }
    }
  }

  lemma TreeCut(w: World, use: Use, w': World)
    requires Cut(w, TreeList(use), w')
    ensures w' == w || Cut(w, UseTree(use, FullTree(w)), w')
  {
    CutStepped(w, TreeList(use), w');
    if w' != w {
      var a :| Answers(w, ListRepos, a) && Cut(w, Feed(TreeList(use), a), w');
      ScanCut(w, use, a.keys, map[], w');
    }
  }

  // ---- EnsureBookmark and bindRow ----

  /** EnsureBookmark: an existing bookmark stays, a missing one is created if its source resolves. */
  function Anchor(w: World, t: Triple, rev: Rev): World {
    Effect(w, CreateBookmark(t, rev))
  }

  function AnchorStatus(w: World, t: Triple, rev: Rev): Status {
    if HasBookmark(w, t) || CanCreate(w, t, rev) then Ok else if t.key !in w.repos then Fail(404) else Fail(502)
  }

  lemma EnsureFinishes(w: World, t: Triple, rev: Rev, goal: Goal, w': World, o: Outcome)
    requires Finishes(w, TreeList(Ensure(t, rev, goal)), w', o)
    ensures match AnchorStatus(w, t, rev)
            case Ok => Finishes(Anchor(w, t, rev), Anchored(t, goal), w', o)
            case Fail(code) => Finishes(w, Aborted(goal, code), w', o)
  {
    hide Finishes;
    TreeFinishes(w, Ensure(t, rev, goal), w', o);
    assert Shows(FullTree(w), t) <==> HasBookmark(w, t);
    if t.key in w.repos && !HasBookmark(w, t) {
      var a := Stepped(w, BmCreate(t, rev, goal), w', o);
    }
  }

  function BindTo(w: World, t: Triple, sid: string): World {
    if Taken(w.rows, t, sid) then w else Effect(Effect(w, InsertRow(t, sid)), InsertManaged(t.key))
  }

  lemma BindFinishes(w: World, t: Triple, sid: string, k: Kont, w': World, o: Outcome)
    requires Finishes(w, BindInsert(t, sid, k), w', o)
    ensures Finishes(BindTo(w, t, sid), Resume(k, Ok), w', o)
  {
    hide Finishes;
    var a := Stepped(w, BindInsert(t, sid, k), w', o);
    if !Taken(w.rows, t, sid) {
      var a' := Stepped(Effect(w, InsertRow(t, sid)), BindManage(t.key, k), w', o);
    }
  }

  /** EnsureBookmark, then bindRow if it worked. */
  function Ensured(w: World, t: Triple, rev: Rev, sid: string): World {
    if AnchorStatus(w, t, rev).Ok? then BindTo(Anchor(w, t, rev), t, sid) else w
  }

  // ---- ensureCreated ----

  function Create(w: World, t: Triple, sid: string): World {
    if sid in w.rows.Values then w else Ensured(Effect(w, PostRepo(t.key)), t, Tip(MAIN), sid)
  }

  function CreateStatus(w: World, t: Triple, sid: string): Status {
    if sid in w.rows.Values then Ok else AnchorStatus(Effect(w, PostRepo(t.key)), t, Tip(MAIN))
  }

  lemma CreateFinishes(w: World, t: Triple, sid: string, k: Kont, w': World, o: Outcome)
    requires Finishes(w, CreatedLookup(t, sid, k), w', o)
    ensures Finishes(Create(w, t, sid), Resume(k, CreateStatus(w, t, sid)), w', o)
  {
    hide Finishes;
    var a := Stepped(w, CreatedLookup(t, sid, k), w', o);
    if sid !in w.rows.Values {
      var w1 := Effect(w, PostRepo(t.key));
      var a1 := Stepped(w, CreatedRepo(t, sid, k), w', o);
      var a2 := Stepped(w1, CreatedProbe(t, sid, k), w', o);
      EnsureFinishes(w1, t, Tip(MAIN), Bind(sid, k), w', o);
      if AnchorStatus(w1, t, Tip(MAIN)).Ok? { BindFinishes(Anchor(w1, t, Tip(MAIN)), t, sid, k, w', o); }
    }
  }

  // ---- ensureForked ----

  lemma BranchFinishes(w: World, t: Triple, sid: string, parentBm: string, w': World, o: Outcome)
    requires Finishes(w, TreeList(Ensure(t, Tip(parentBm), Bind(sid, Return))), w', o)
    ensures w' == Ensured(w, t, Tip(parentBm), sid) && o == Status(AnchorStatus(w, t, Tip(parentBm)))
  {
    hide Finishes;
    EnsureFinishes(w, t, Tip(parentBm), Bind(sid, Return), w', o);
    match AnchorStatus(w, t, Tip(parentBm)) {
      case Ok =>
        BindFinishes(Anchor(w, t, Tip(parentBm)), t, sid, Return, w', o);
        Ended(BindTo(Anchor(w, t, Tip(parentBm)), t, sid), Status(Ok), w', o);
      case Fail(code) => Ended(w, Status(Fail(code)), w', o);
    }
  }

  /** A fork of t from the bookmark of parent p, which is materialised first when it has no row. */
  function ForkFrom(w: World, t: Triple, sid: string, p: Triple): World {
    if p in w.rows then Ensured(w, t, Tip(p.bm), sid)
    else if CreateStatus(w, p, Naming(p)).Ok? then Ensured(Create(w, p, Naming(p)), t, Tip(p.bm), sid)
    else Create(w, p, Naming(p))
  }

  function ForkFromStatus(w: World, t: Triple, p: Triple): Status {
    if p in w.rows then AnchorStatus(w, t, Tip(p.bm))
    else if CreateStatus(w, p, Naming(p)).Ok? then AnchorStatus(Create(w, p, Naming(p)), t, Tip(p.bm))
    else CreateStatus(w, p, Naming(p))
  }

  function Fork(w: World, t: Triple, sid: string, parentSid: string): World {
    if sid in w.rows.Values then w
    else match Parse(parentSid)
      case None => Ensured(w, t, Tip(MAIN), sid)
      case Some(p) => if p.key != t.key then w else ForkFrom(w, t, sid, p)
  }

  function ForkStatus(w: World, t: Triple, sid: string, parentSid: string): Status {
    if sid in w.rows.Values then Ok
    else match Parse(parentSid)
      case None => AnchorStatus(w, t, Tip(MAIN))
      case Some(p) => if p.key != t.key then Fail(400) else ForkFromStatus(w, t, p)
  }

  lemma ForkFinishes(w: World, t: Triple, sid: string, parentSid: string, w': World, o: Outcome)
    requires Finishes(w, ForkedLookup(t, sid, parentSid), w', o)
    ensures w' == Fork(w, t, sid, parentSid) && o == Status(ForkStatus(w, t, sid, parentSid))
  {
    hide Finishes;
    var a := Stepped(w, ForkedLookup(t, sid, parentSid), w', o);
    if sid in w.rows.Values {
      Ended(w, Status(Ok), w', o);
    } else if Parse(parentSid).None? {
      BranchFinishes(w, t, sid, MAIN, w', o);
    } else {
      var p := Parse(parentSid).value;
      if p.key != t.key {
        Ended(w, Status(Fail(400)), w', o);
      } else {
        var a1 := Stepped(w, ForkedParent(t, sid, p), w', o);
        ForkParentFinishes(w, t, sid, p, a1, w', o);
      }
    }
  }

  lemma ForkParentFinishes(w: World, t: Triple, sid: string, p: Triple, a: Resp, w': World, o: Outcome)
    requires Answers(w, GetRow(p), a) && Finishes(w, Feed(ForkedParent(t, sid, p), a), w', o)
    ensures w' == ForkFrom(w, t, sid, p) && o == Status(ForkFromStatus(w, t, p))
  {
    hide Finishes;
    if p in w.rows {
      BranchFinishes(w, t, sid, p.bm, w', o);
    } else {
      var w1, st := Create(w, p, Naming(p)), CreateStatus(w, p, Naming(p));
      CreateFinishes(w, p, Naming(p), Inherit(t, sid, p.bm), w', o);
      if st.Ok? { BranchFinishes(w1, t, sid, p.bm, w', o); } else { Ended(w1, Status(st), w', o); }
    }
  }

  // ---- DeleteBookmark, ensureRenamed, ensureDeleted ----

  lemma DropFinishes(w: World, t: Triple, after: DropGoal, w': World, o: Outcome)
    requires Finishes(w, TreeList(Drop(t, after)), w', o)
    ensures Finishes(Effect(w, DropBookmark(t)), Dropped(t, after), w', o)
  {
    hide Finishes;
    TreeFinishes(w, Drop(t, after), w', o);
    assert Shows(FullTree(w), t) <==> HasBookmark(w, t);
    if HasBookmark(w, t) { var a := Stepped(w, DropCall(t, after), w', o); }
  }

  /** The table, cache and bookmark updates of a rename, once the new bookmark is there. */
  function MoveRow(w: World, from: Triple, to: Triple): World {
    if Taken(w.rows - {from}, to, Naming(to)) then w
    else
      var w1 := Effect(w, RenameRow(from, to, Naming(to)));
      Effect(Effect(w1, CacheEvict(Naming(from))), DropBookmark(from))
  }

  function Rename(w: World, from: Triple, to: Triple): World {
    if from !in w.rows then Create(w, to, Naming(to))
    else if AnchorStatus(w, to, Tip(from.bm)).Ok? then MoveRow(Anchor(w, to, Tip(from.bm)), from, to)
    else w
  }

  function RenameStatus(w: World, from: Triple, to: Triple): Status {
    if from !in w.rows then CreateStatus(w, to, Naming(to)) else AnchorStatus(w, to, Tip(from.bm))
  }

  lemma MoveFinishes(w: World, from: Triple, to: Triple, w': World, o: Outcome)
    requires from in w.rows && Finishes(w, RenameMove(from, to), w', o)
    ensures w' == MoveRow(w, from, to) && o == Status(Ok)
  {
    hide Finishes;
    var a := Stepped(w, RenameMove(from, to), w', o);
    if Taken(w.rows - {from}, to, Naming(to)) {
      Ended(w, Status(Ok), w', o);
    } else {
      var w1 := Effect(w, RenameRow(from, to, Naming(to)));
      var a1 := Stepped(w1, RenameEvict(from), w', o);
      var w2 := Effect(w1, CacheEvict(Naming(from)));
      DropFinishes(w2, from, Finish, w', o);
      Ended(Effect(w2, DropBookmark(from)), Status(Ok), w', o);
    }
  }

  lemma RenameFinishes(w: World, from: Triple, to: Triple, w': World, o: Outcome)
    requires Finishes(w, RenameGet(from, to), w', o)
    ensures w' == Rename(w, from, to) && o == Status(RenameStatus(w, from, to))
  {
    hide Finishes;
    var a := Stepped(w, RenameGet(from, to), w', o);
    if from !in w.rows {
      CreateFinishes(w, to, Naming(to), Return, w', o);
      Ended(Create(w, to, Naming(to)), Status(CreateStatus(w, to, Naming(to))), w', o);
    } else {
      EnsureFinishes(w, to, Tip(from.bm), Move(from), w', o);
      match AnchorStatus(w, to, Tip(from.bm)) {
        case Ok => MoveFinishes(Anchor(w, to, Tip(from.bm)), from, to, w', o);
        case Fail(code) => Ended(w, Status(Fail(code)), w', o);
      }
    }
  }

  function Delete(w: World, t: Triple, sid: string): World {
    if sid !in w.rows.Values then w
    else Effect(Effect(Effect(w, DropBookmark(t)), DeleteRow(t)), CacheEvict(sid))
  }

  lemma UnmapFinishes(w: World, t: Triple, sid: string, w': World, o: Outcome)
    requires Finishes(w, UnmapRow(t, sid), w', o)
    ensures w' == Effect(Effect(w, DeleteRow(t)), CacheEvict(sid)) && o == Status(Ok)
  {
    hide Finishes;
    var a := Stepped(w, UnmapRow(t, sid), w', o);
    var w1 := Effect(w, DeleteRow(t));
    var a1 := Stepped(w1, UnmapEvict(sid), w', o);
    Ended(Effect(w1, CacheEvict(sid)), Status(Ok), w', o);
  }

  lemma DeleteFinishes(w: World, t: Triple, sid: string, w': World, o: Outcome)
    requires Finishes(w, DeletedLookup(t, sid), w', o)
    ensures w' == Delete(w, t, sid) && o == Status(Ok)
  {
    hide Finishes;
    var a := Stepped(w, DeletedLookup(t, sid), w', o);
    if sid !in w.rows.Values {
      Ended(w, Status(Ok), w', o);
    } else {
      DropFinishes(w, t, Unmap(sid), w', o);
      UnmapFinishes(Effect(w, DropBookmark(t)), t, sid, w', o);
    }
  }

  // ---- lifecycle events ----

  function Handle(w: World, e: Event): World {
    match OnEvent(e)
    case CreatedLookup(t, sid, _) => Create(w, t, sid)
    case ForkedLookup(t, sid, parentSid) => Fork(w, t, sid, parentSid)
    case RenameGet(from, to) => Rename(w, from, to)
    case DeletedLookup(t, sid) => Delete(w, t, sid)
    case _ => w
  }

  function HandleStatus(w: World, e: Event): Status {
    match OnEvent(e)
    case CreatedLookup(t, sid, _) => CreateStatus(w, t, sid)
    case ForkedLookup(t, sid, parentSid) => ForkStatus(w, t, sid, parentSid)
    case RenameGet(from, to) => RenameStatus(w, from, to)
    case DeletedLookup(_, _) => Ok
    case _ => Fail(400)
  }

  /** Every fault-free run of an event handler ends in the same state, with the same status. */
  lemma EventFinishes(w: World, e: Event, w': World, o: Outcome)
    requires Finishes(w, OnEvent(e), w', o)
    ensures w' == Handle(w, e) && o == Status(HandleStatus(w, e))
  {
    var pc := OnEvent(e);
    if pc.CreatedLookup? {
      CreateFinishes(w, pc.t, pc.sid, Return, w', o);
      Ended(Create(w, pc.t, pc.sid), Status(CreateStatus(w, pc.t, pc.sid)), w', o);
    } else if pc.ForkedLookup? {
      ForkFinishes(w, pc.t, pc.sid, pc.parentSid, w', o);
    } else if pc.RenameGet? {
      RenameFinishes(w, pc.from, pc.to, w', o);
    } else if pc.DeletedLookup? {
      DeleteFinishes(w, pc.t, pc.sid, w', o);
    } else {
      Ended(w, pc.out, w', o);
    }
  }
}
