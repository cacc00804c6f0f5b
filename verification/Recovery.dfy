/** Crash and redeliver: an event handler cut after any of its calls, then run in full on the
    redelivered event, reaches the rows and bookmarks of an uninterrupted run (events_sub.go). */
module Recovery {
  import opened Names
  import opened Stores
  import opened Handlers
  import opened BigStep

  predicate SameStores(a: World, b: World) {
    a.rows == b.rows && a.repos == b.repos && a.sessions == b.sessions
  }

  /** The process died: handlers and cache are gone. */
  function Crashed(w: World): World {
    w.(cache := map[])
  }

  lemma CutEnd(w: World, o: Outcome, w': World)
    requires Cut(w, End(o), w')
    ensures w' == w
  {
    CutStepped(w, End(o), w');
  }

  // ---- the states a routine passes through ----

  predicate BindStage(w: World, t: Triple, sid: string, x: World) {
    x == w || (!Taken(w.rows, t, sid) && (x == Effect(w, InsertRow(t, sid)) || x == BindTo(w, t, sid)))
  }

  lemma BindCut(w: World, t: Triple, sid: string, k: Kont, x: World)
    requires Cut(w, BindInsert(t, sid, k), x)
    ensures BindStage(w, t, sid, x) || Cut(BindTo(w, t, sid), Resume(k, Ok), x)
  {
    CutStepped(w, BindInsert(t, sid, k), x);
    var w1 := Effect(w, InsertRow(t, sid));
    if !Taken(w.rows, t, sid) && x != w && x != w1 {
      CutStepped(w1, BindManage(t.key, k), x);
    }
  }

  predicate EnsureStage(w: World, t: Triple, rev: Rev, sid: string, x: World) {
    x == w || (AnchorStatus(w, t, rev).Ok? && BindStage(Anchor(w, t, rev), t, sid, x))
  }

  lemma EnsureCut(w: World, t: Triple, rev: Rev, sid: string, k: Kont, x: World)
    requires Cut(w, TreeList(Ensure(t, rev, Bind(sid, k))), x)
    ensures EnsureStage(w, t, rev, sid, x)
            || Cut(Ensured(w, t, rev, sid), Resume(k, AnchorStatus(w, t, rev)), x)
  {
    hide Cut;
    var goal := Bind(sid, k);
    TreeCut(w, Ensure(t, rev, goal), x);
    assert Shows(FullTree(w), t) <==> HasBookmark(w, t);
    if x != w {
      if HasBookmark(w, t) {
        BindCut(w, t, sid, k, x);
      } else if t.key in w.repos {
        CreateCallCut(w, t, rev, sid, k, x);
      }
    }
  }

  lemma CreateCallCut(w: World, t: Triple, rev: Rev, sid: string, k: Kont, x: World)
    requires t.key in w.repos && !HasBookmark(w, t) && x != w
    requires Cut(w, BmCreate(t, rev, Bind(sid, k)), x)
    ensures EnsureStage(w, t, rev, sid, x)
            || Cut(Ensured(w, t, rev, sid), Resume(k, AnchorStatus(w, t, rev)), x)
  {
    CutStepped(w, BmCreate(t, rev, Bind(sid, k)), x);
    if x != Anchor(w, t, rev) && CanCreate(w, t, rev) { BindCut(Anchor(w, t, rev), t, sid, k, x); }
  }

  predicate CreateStage(w: World, t: Triple, sid: string, x: World) {
    x == w || (sid !in w.rows.Values && EnsureStage(Effect(w, PostRepo(t.key)), t, Tip(MAIN), sid, x))
  }

  lemma CreateCut(w: World, t: Triple, sid: string, k: Kont, x: World)
    requires Cut(w, CreatedLookup(t, sid, k), x)
    ensures CreateStage(w, t, sid, x) || Cut(Create(w, t, sid), Resume(k, CreateStatus(w, t, sid)), x)
  {
    CutStepped(w, CreatedLookup(t, sid, k), x);
    if x != w && sid !in w.rows.Values {
      CutStepped(w, CreatedRepo(t, sid, k), x);
      var w1 := Effect(w, PostRepo(t.key));
      if x != w1 {
        CutStepped(w1, CreatedProbe(t, sid, k), x);
        EnsureCut(w1, t, Tip(MAIN), sid, k, x);
      }
    }
  }

  // ---- running again from each of them ----

  /** Stopped in EnsureBookmark or bindRow: the session is mapped and all is done, or doing both again finishes. */
  lemma EnsureAgain(w: World, t: Triple, rev: Rev, sid: string, x: World)
    requires sid !in w.rows.Values && EnsureStage(w, t, rev, sid, x)
    ensures if sid in x.rows.Values then AnchorStatus(w, t, rev).Ok? && SameStores(x, Ensured(w, t, rev, sid))
            else SameStores(Ensured(x, t, rev, sid), Ensured(w, t, rev, sid))
                 && AnchorStatus(x, t, rev) == AnchorStatus(w, t, rev)
  {
    if AnchorStatus(w, t, rev).Ok? {
      var w2 := Anchor(w, t, rev);
      assert w2.rows == w.rows;
      if x != w && x != w2 { assert x.rows == w.rows[t := sid] && t in x.rows; }
    }
  }

  lemma CreateAgain(w: World, t: Triple, sid: string, x: World)
    requires CreateStage(w, t, sid, x)
    ensures SameStores(Create(x, t, sid), Create(w, t, sid))
    ensures CreateStatus(x, t, sid) == CreateStatus(w, t, sid)
  {
    var w1 := Effect(w, PostRepo(t.key));
    if x != w {
      EnsureAgain(w1, t, Tip(MAIN), sid, x);
      EnsureKeepsRepo(w1, t, Tip(MAIN), sid, x);
    }
  }

  lemma EnsureKeepsRepo(w: World, t: Triple, rev: Rev, sid: string, x: World)
    requires EnsureStage(w, t, rev, sid, x) && t.key in w.repos
    ensures t.key in x.repos && Effect(x, PostRepo(t.key)) == x
  {
    assert t.key in Anchor(w, t, rev).repos;
  }

  // ---- ensureForked ----

  /** Stopped while materialising the parent, or later. */
  predicate ForkStage(w: World, t: Triple, sid: string, p: Triple, x: World) {
    var psid := Naming(p);
    if p in w.rows then EnsureStage(w, t, Tip(p.bm), sid, x)
    else CreateStage(w, p, psid, x)
         || (CreateStatus(w, p, psid).Ok? && EnsureStage(Create(w, p, psid), t, Tip(p.bm), sid, x))
  }

  lemma BranchCut(w: World, t: Triple, sid: string, bm: string, x: World)
    requires Cut(w, TreeList(Ensure(t, Tip(bm), Bind(sid, Return))), x)
    ensures EnsureStage(w, t, Tip(bm), sid, x)
  {
    EnsureCut(w, t, Tip(bm), sid, Return, x);
    if !EnsureStage(w, t, Tip(bm), sid, x) {
      CutEnd(Ensured(w, t, Tip(bm), sid), Status(AnchorStatus(w, t, Tip(bm))), x);
    }
  }

  lemma ForkCut(w: World, t: Triple, sid: string, p: Triple, x: World)
    requires Cut(w, ForkedParent(t, sid, p), x)
    ensures ForkStage(w, t, sid, p, x)
  {
    CutStepped(w, ForkedParent(t, sid, p), x);
    if x != w {
      if p in w.rows {
        BranchCut(w, t, sid, p.bm, x);
      } else {
        var psid := Naming(p);
        CreateCut(w, p, psid, Inherit(t, sid, p.bm), x);
        if !CreateStage(w, p, psid, x) {
          if CreateStatus(w, p, psid).Ok? { BranchCut(Create(w, p, psid), t, sid, p.bm, x); }
          else { CutEnd(Create(w, p, psid), Status(CreateStatus(w, p, psid)), x); }
        }
      }
    }
  }

  /** A materialised parent has its row. */
  lemma CreateMaps(w: World, p: Triple)
    requires RowsNamed(w) && Clean(p) && p !in w.rows
    ensures Naming(p) !in w.rows.Values
    ensures if CreateStatus(w, p, Naming(p)).Ok? then
              Create(w, p, Naming(p)).rows == w.rows[p := Naming(p)] && HasBookmark(Create(w, p, Naming(p)), p)
            else Create(w, p, Naming(p)).rows == w.rows
  {
    ConflictMeansBound(w, p, p);
    assert Anchor(Effect(w, PostRepo(p.key)), p, Tip(MAIN)).rows == w.rows;
  }

  /** A fork of a session from itself adds nothing to materialising it. */
  lemma ForkItself(w: World, t: Triple, rev: Rev)
    requires t in w.rows && HasBookmark(w, t)
    ensures Ensured(w, t, rev, Naming(t)) == w && AnchorStatus(w, t, rev).Ok?
    ensures forall x :: EnsureStage(w, t, rev, Naming(t), x) ==> x == w
  {
  }

  /** Only the stores the routines look at matter to them. */
  lemma EnsuredSame(a: World, b: World, t: Triple, rev: Rev, sid: string)
    requires SameStores(a, b)
    ensures SameStores(Ensured(a, t, rev, sid), Ensured(b, t, rev, sid))
    ensures AnchorStatus(a, t, rev) == AnchorStatus(b, t, rev)
  {
    hide Naming, Creatable;
    assert SameStores(Anchor(a, t, rev), Anchor(b, t, rev));
  }

  lemma CreateSame(a: World, b: World, t: Triple, sid: string)
    requires SameStores(a, b)
    ensures SameStores(Create(a, t, sid), Create(b, t, sid))
    ensures CreateStatus(a, t, sid) == CreateStatus(b, t, sid)
  {
    EnsuredSame(Effect(a, PostRepo(t.key)), Effect(b, PostRepo(t.key)), t, Tip(MAIN), sid);
  }

  lemma ForkFromSame(a: World, b: World, t: Triple, sid: string, p: Triple)
    requires SameStores(a, b)
    ensures SameStores(ForkFrom(a, t, sid, p), ForkFrom(b, t, sid, p))
    ensures ForkFromStatus(a, t, p) == ForkFromStatus(b, t, p)
  {
    var psid := Naming(p);
    EnsuredSame(a, b, t, Tip(p.bm), sid);
    CreateSame(a, b, p, psid);
    EnsuredSame(Create(a, p, psid), Create(b, p, psid), t, Tip(p.bm), sid);
  }

  /** Stopped anywhere in a fork: the session is mapped and all is done, or forking again finishes. */
  lemma ForkAgain(w: World, t: Triple, p: Triple, x: World)
    requires RowsNamed(w) && Clean(t) && Clean(p) && t !in w.rows && ForkStage(w, t, Naming(t), p, x)
    ensures if Naming(t) in x.rows.Values then
              SameStores(x, ForkFrom(w, t, Naming(t), p)) && ForkFromStatus(w, t, p).Ok?
            else SameStores(ForkFrom(x, t, Naming(t), p), ForkFrom(w, t, Naming(t), p))
                 && ForkFromStatus(x, t, p) == ForkFromStatus(w, t, p)
  {
    ConflictMeansBound(w, t, t);
    if p in w.rows {
      ForkEndAgain(w, t, p, x);
    } else {
      var psid := Naming(p);
      var w1 := Create(w, p, psid);
      CreateMaps(w, p);
      if CreateStage(w, p, psid, x) {
        ForkParentAgain(w, t, p, x);
      } else if p == t {
        ForkItself(w1, t, Tip(p.bm));
      } else {
        NotNamedYet(w, t, p);
        ForkEndAgain(w1, t, p, x);
      }
    }
  }

  lemma NotNamedYet(w: World, t: Triple, p: Triple)
    requires RowsNamed(w) && Clean(t) && Clean(p) && t !in w.rows && t != p
    ensures Naming(t) !in w.rows[p := Naming(p)].Values
  {
    ConflictMeansBound(w, t, t);
    if Naming(t) == Naming(p) { NamingInjective(t, p); }
  }

  lemma ForkEndAgain(w: World, t: Triple, p: Triple, x: World)
    requires Naming(t) !in w.rows.Values && p in w.rows && EnsureStage(w, t, Tip(p.bm), Naming(t), x)
    ensures p in x.rows
    ensures if Naming(t) in x.rows.Values then
              SameStores(x, Ensured(w, t, Tip(p.bm), Naming(t))) && AnchorStatus(w, t, Tip(p.bm)).Ok?
            else SameStores(ForkFrom(x, t, Naming(t), p), Ensured(w, t, Tip(p.bm), Naming(t)))
                 && ForkFromStatus(x, t, p) == AnchorStatus(w, t, Tip(p.bm))
  {
    hide Naming, Ensured;
    EnsureAgain(w, t, Tip(p.bm), Naming(t), x);
    assert p in Anchor(w, t, Tip(p.bm)).rows;
  }

  lemma ForkParentAgain(w: World, t: Triple, p: Triple, x: World)
    requires RowsNamed(w) && Clean(t) && Clean(p) && t !in w.rows && p !in w.rows
    requires CreateStage(w, p, Naming(p), x)
    ensures if Naming(t) in x.rows.Values then
              SameStores(x, ForkFrom(w, t, Naming(t), p)) && ForkFromStatus(w, t, p).Ok?
            else SameStores(ForkFrom(x, t, Naming(t), p), ForkFrom(w, t, Naming(t), p))
                 && ForkFromStatus(x, t, p) == ForkFromStatus(w, t, p)
  {
    var psid, w1 := Naming(p), Create(w, p, Naming(p));
    CreateMaps(w, p);
    ConflictMeansBound(w, t, t);
    StageRows(w, p, x);
    if p in x.rows {
      if p == t { ForkItself(w1, t, Tip(p.bm)); } else { NotNamedYet(w, t, p); }
      EnsuredSame(x, w1, t, Tip(p.bm), Naming(t));
    } else {
      CreateAgain(w, p, psid, x);
      EnsuredSame(Create(x, p, psid), w1, t, Tip(p.bm), Naming(t));
    }
  }

  /** While the parent is being materialised, either its row is the last thing done or no row has changed. */
  lemma StageRows(w: World, p: Triple, x: World)
    requires RowsNamed(w) && Clean(p) && p !in w.rows && CreateStage(w, p, Naming(p), x)
    ensures if p in x.rows then
              x.rows == w.rows[p := Naming(p)] && SameStores(x, Create(w, p, Naming(p)))
              && CreateStatus(w, p, Naming(p)).Ok?
            else x.rows == w.rows
  {
    CreateMaps(w, p);
    if x != w { StageOfEnsure(Effect(w, PostRepo(p.key)), p, x); }
  }

  lemma StageOfEnsure(w: World, p: Triple, x: World)
    requires Naming(p) !in w.rows.Values && p !in w.rows && EnsureStage(w, p, Tip(MAIN), Naming(p), x)
    ensures if p in x.rows then
              x.rows == w.rows[p := Naming(p)] && SameStores(x, Ensured(w, p, Tip(MAIN), Naming(p)))
              && AnchorStatus(w, p, Tip(MAIN)).Ok?
            else x.rows == w.rows
  {
    hide Ensured, SameStores;
    EnsureAgain(w, p, Tip(MAIN), Naming(p), x);
    assert Anchor(w, p, Tip(MAIN)).rows == w.rows;
    assert p in x.rows ==> x.rows[p] in x.rows.Values;
  }

  // ---- ensureRenamed and ensureDeleted ----

  lemma DropCut(w: World, t: Triple, after: DropGoal, x: World)
    requires Cut(w, TreeList(Drop(t, after)), x)
    ensures x == w || x == Effect(w, DropBookmark(t)) || Cut(Effect(w, DropBookmark(t)), Dropped(t, after), x)
  {
    hide Cut;
    TreeCut(w, Drop(t, after), x);
    assert Shows(FullTree(w), t) <==> HasBookmark(w, t);
    if x != w && HasBookmark(w, t) { CutStepped(w, DropCall(t, after), x); }
  }

  /** The states a delete passes through. */
  predicate DeleteStage(w: World, t: Triple, sid: string, x: World) {
    || SameStores(x, w)
    || (sid in w.rows.Values && (SameStores(x, Effect(w, DropBookmark(t))) || SameStores(x, Delete(w, t, sid))))
  }

  lemma DeleteCut(w: World, t: Triple, sid: string, x: World)
    requires Cut(w, DeletedLookup(t, sid), x)
    ensures DeleteStage(w, t, sid, x)
  {
    CutStepped(w, DeletedLookup(t, sid), x);
    if x != w {
      if sid in w.rows.Values { DeleteDropCut(w, t, sid, x); } else { CutEnd(w, Status(Ok), x); }
    }
  }

  lemma DeleteStores(w: World, t: Triple, sid: string)
    ensures var z := Delete(w, t, sid);
            z.sessions == w.sessions &&
            if sid in w.rows.Values then z.rows == w.rows - {t} && z.repos == Effect(w, DropBookmark(t)).repos
            else z == w
  {
  }

  lemma DeleteDropCut(w: World, t: Triple, sid: string, x: World)
    requires sid in w.rows.Values && Cut(w, TreeList(Drop(t, Unmap(sid))), x)
    ensures DeleteStage(w, t, sid, x)
  {
    var w1 := Effect(w, DropBookmark(t));
    DropCut(w, t, Unmap(sid), x);
    if x != w && x != w1 {
      UnmapCut(w1, t, sid, x);
      DeleteStores(w, t, sid);
    }
  }

  lemma UnmapCut(w: World, t: Triple, sid: string, x: World)
    requires Cut(w, UnmapRow(t, sid), x)
    ensures x == w || SameStores(x, Effect(w, DeleteRow(t)))
  {
    CutStepped(w, UnmapRow(t, sid), x);
    var w1 := Effect(w, DeleteRow(t));
    if x != w && x != w1 {
      CutStepped(w1, UnmapEvict(sid), x);
      var w2 := Effect(w1, CacheEvict(sid));
      if x != w2 { CutEnd(w2, Status(Ok), x); }
    }
  }

  /** The session of a removed row is mapped no more. */
  lemma RowGone(w: World, t: Triple)
    requires RowsNamed(w) && Clean(t)
    ensures Naming(t) in w.rows.Values <==> t in w.rows
    ensures Naming(t) !in (w.rows - {t}).Values
  {
    ConflictMeansBound(w, t, t);
    if Naming(t) in (w.rows - {t}).Values {
      var u :| u in w.rows - {t} && w.rows[u] == Naming(t);
      NamingInjective(u, t);
    }
  }

  lemma DropTwice(a: World, b: World, t: Triple)
    requires a.repos == b.repos || a.repos == Effect(b, DropBookmark(t)).repos
    ensures Effect(a, DropBookmark(t)).repos == Effect(b, DropBookmark(t)).repos
  {
  }

  lemma DeleteAgain(w: World, t: Triple, x: World)
    requires RowsNamed(w) && Clean(t) && DeleteStage(w, t, Naming(t), x)
    ensures SameStores(Delete(x, t, Naming(t)), Delete(w, t, Naming(t)))
  {
    RowGone(w, t);
    DeleteStores(w, t, Naming(t));
    DeleteStores(x, t, Naming(t));
    DropTwice(x, w, t);
  }

  /** The states a rename passes through: before the row moves, or after. */
  predicate RenameStage(w: World, from: Triple, to: Triple, x: World) {
    if from !in w.rows then CreateStage(w, to, Naming(to), x)
    else
      var w1 := Anchor(w, to, Tip(from.bm));
      || x == w
      || (AnchorStatus(w, to, Tip(from.bm)).Ok? && (x == w1 || MoveStage(w1, from, to, x)))
  }

  predicate MoveStage(w: World, from: Triple, to: Triple, x: World) {
    !Taken(w.rows - {from}, to, Naming(to)) &&
    (SameStores(x, Effect(w, RenameRow(from, to, Naming(to)))) || SameStores(x, MoveRow(w, from, to)))
  }

  lemma MoveCut(w: World, from: Triple, to: Triple, x: World)
    requires from in w.rows && Cut(w, RenameMove(from, to), x)
    ensures x == w || MoveStage(w, from, to, x)
  {
    hide Cut;
    CutStepped(w, RenameMove(from, to), x);
    var w1 := Effect(w, RenameRow(from, to, Naming(to)));
    if x != w && x != w1 {
      if Taken(w.rows - {from}, to, Naming(to)) {
        CutEnd(w, Status(Ok), x);
      } else {
        MovedCut(w1, from, x);
      }
    }
  }

  lemma MovedCut(w: World, from: Triple, x: World)
    requires Cut(w, RenameEvict(from), x)
    ensures SameStores(x, w) || SameStores(x, Effect(w, DropBookmark(from)))
  {
    hide Cut;
    CutStepped(w, RenameEvict(from), x);
    var w2 := Effect(w, CacheEvict(Naming(from)));
    if x != w && x != w2 {
      DropCut(w2, from, Finish, x);
      var w3 := Effect(w2, DropBookmark(from));
      if x != w3 && x != w2 { CutEnd(w3, Status(Ok), x); }
    }
  }

  lemma RenameCut(w: World, from: Triple, to: Triple, x: World)
    requires Cut(w, RenameGet(from, to), x)
    ensures RenameStage(w, from, to, x)
  {
    CutStepped(w, RenameGet(from, to), x);
    if x != w {
      if from !in w.rows {
        CreateCut(w, to, Naming(to), Return, x);
        if !CreateStage(w, to, Naming(to), x) {
          CutEnd(Create(w, to, Naming(to)), Status(CreateStatus(w, to, Naming(to))), x);
        }
      } else {
        MoveEnsureCut(w, from, to, x);
      }
    }
  }

  lemma MoveEnsureCut(w: World, from: Triple, to: Triple, x: World)
    requires from in w.rows && Cut(w, TreeList(Ensure(to, Tip(from.bm), Move(from))), x)
    ensures RenameStage(w, from, to, x)
  {
    hide Cut;
    var rev, goal := Tip(from.bm), Move(from);
    TreeCut(w, Ensure(to, rev, goal), x);
    assert Shows(FullTree(w), to) <==> HasBookmark(w, to);
    if x != w {
      if HasBookmark(w, to) {
        MoveCut(w, from, to, x);
      } else if to.key !in w.repos {
        CutEnd(w, Status(Fail(404)), x);
      } else {
        CutStepped(w, BmCreate(to, rev, goal), x);
        if x != Anchor(w, to, rev) {
          if CanCreate(w, to, rev) { MoveCut(Anchor(w, to, rev), from, to, x); }
          else { CutEnd(w, Status(Fail(502)), x); }
        }
      }
    }
  }

  /** The row has moved and the old bookmark is still there: the one place a cut rename leaves a mark. */
  predicate LeavesOrphan(w: World, from: Triple, x: World) {
    from in w.rows && from !in x.rows && HasBookmark(x, from)
  }

  lemma RenameAgain(w: World, from: Triple, to: Triple, x: World)
    requires RowsNamed(w) && Clean(from) && Clean(to) && from != to && RenameStage(w, from, to, x)
    ensures var z, full := Rename(x, from, to), Rename(w, from, to);
            && z.rows == full.rows && z.sessions == full.sessions
            && (LeavesOrphan(w, from, x) ==>
                  HasBookmark(z, from) && !HasBookmark(full, from) && UnsetBookmark(z, from).repos == full.repos)
            && (!LeavesOrphan(w, from, x) ==>
                  z.repos == full.repos && (RenameStatus(x, from, to) == RenameStatus(w, from, to)))
  {
    if from !in w.rows {
      CreateAgain(w, to, Naming(to), x);
      StayUnmapped(w, from, to, x);
    } else if from in x.rows {
      RenameFromStart(w, from, to, x);
    } else {
      RenameFromMiddle(w, from, to, x);
    }
  }

  lemma StayUnmapped(w: World, from: Triple, to: Triple, x: World)
    requires from !in w.rows && from != to && CreateStage(w, to, Naming(to), x)
    ensures from !in x.rows
  {
    assert Anchor(Effect(w, PostRepo(to.key)), to, Tip(MAIN)).rows == w.rows;
  }

  /** What the table and the bookmarks look like once the row has moved. */
  lemma MoveStores(w: World, from: Triple, to: Triple)
    requires from in w.rows && !Taken(w.rows - {from}, to, Naming(to))
    ensures var y, z := Effect(w, RenameRow(from, to, Naming(to))), MoveRow(w, from, to);
            && y.rows == z.rows == (w.rows - {from})[to := Naming(to)]
            && y.sessions == z.sessions == w.sessions
            && y.repos == w.repos && z.repos == Effect(w, DropBookmark(from)).repos
  {
  }

  lemma RenameFromStart(w: World, from: Triple, to: Triple, x: World)
    requires from in w.rows && from in x.rows && from != to && RenameStage(w, from, to, x)
    ensures Rename(x, from, to) == Rename(w, from, to) && RenameStatus(x, from, to) == RenameStatus(w, from, to)
  {
    var w1 := Anchor(w, to, Tip(from.bm));
    assert w1.rows == w.rows;
    if MoveStage(w1, from, to, x) { MoveStores(w1, from, to); }
    assert x == w || x == w1;
  }

  lemma RenameFromMiddle(w: World, from: Triple, to: Triple, x: World)
    requires from in w.rows && from !in x.rows && from != to && RenameStage(w, from, to, x)
    ensures var z, full := Rename(x, from, to), Rename(w, from, to);
            && z == x && z.rows == full.rows && z.sessions == full.sessions
            && (HasBookmark(x, from) ==> !HasBookmark(full, from) && UnsetBookmark(z, from).repos == full.repos)
            && (!HasBookmark(x, from) ==> z.repos == full.repos)
            && RenameStatus(x, from, to).Ok? && RenameStatus(w, from, to).Ok?
    ensures to in x.rows && x.rows[to] == Naming(to)
  {
    var w1 := Anchor(w, to, Tip(from.bm));
    assert w1.rows == w.rows;
    MoveStores(w1, from, to);
    assert to in x.rows && x.rows[to] == Naming(to);
    assert Rename(x, from, to) == x;
    assert Rename(w, from, to) == MoveRow(w1, from, to);
  }

  // ---- any event ----

  lemma HandleSame(a: World, b: World, e: Event)
    requires SameStores(a, b)
    ensures SameStores(Handle(a, e), Handle(b, e)) && HandleStatus(a, e) == HandleStatus(b, e)
  {
    var pc := OnEvent(e);
    if pc.CreatedLookup? { CreateSame(a, b, pc.t, pc.sid); }
    else if pc.ForkedLookup? { ForkSame(a, b, pc.t, pc.sid, pc.parentSid); }
    else if pc.RenameGet? { RenameSame(a, b, pc.from, pc.to); }
    else if pc.DeletedLookup? {
      DeleteStores(a, pc.t, pc.sid);
      DeleteStores(b, pc.t, pc.sid);
      DropTwice(a, b, pc.t);
    }
  }

  lemma ForkSame(a: World, b: World, t: Triple, sid: string, parentSid: string)
    requires SameStores(a, b)
    ensures SameStores(Fork(a, t, sid, parentSid), Fork(b, t, sid, parentSid))
    ensures ForkStatus(a, t, sid, parentSid) == ForkStatus(b, t, sid, parentSid)
  {
    EnsuredSame(a, b, t, Tip(MAIN), sid);
    if Parse(parentSid).Some? { ForkFromSame(a, b, t, sid, Parse(parentSid).value); }
  }

  lemma RenameSame(a: World, b: World, from: Triple, to: Triple)
    requires SameStores(a, b)
    ensures SameStores(Rename(a, from, to), Rename(b, from, to))
    ensures RenameStatus(a, from, to) == RenameStatus(b, from, to)
  {
    CreateSame(a, b, to, Naming(to));
    EnsuredSame(a, b, to, Tip(from.bm), Naming(to));
    var a1, b1 := Anchor(a, to, Tip(from.bm)), Anchor(b, to, Tip(from.bm));
    assert SameStores(a1, b1);
    if from in a1.rows && !Taken(a1.rows - {from}, to, Naming(to)) {
      MoveStores(a1, from, to);
      MoveStores(b1, from, to);
      DropTwice(a1, b1, from);
    }
  }

  lemma ForkedCut(w: World, t: Triple, parentSid: string, x: World)
    requires Sound(w) && Clean(t) && Cut(w, ForkedLookup(t, Naming(t), parentSid), x)
    ensures SameStores(Fork(x, t, Naming(t), parentSid), Fork(w, t, Naming(t), parentSid))
    ensures ForkStatus(x, t, Naming(t), parentSid) == ForkStatus(w, t, Naming(t), parentSid)
  {
    var sid := Naming(t);
    CutStepped(w, ForkedLookup(t, sid, parentSid), x);
    ConflictMeansBound(w, t, t);
    if x != w {
      if sid in w.rows.Values {
        CutEnd(w, Status(Ok), x);
      } else if Parse(parentSid).None? {
        BranchCut(w, t, sid, MAIN, x);
        EnsureAgain(w, t, Tip(MAIN), sid, x);
      } else {
        ForkedParentCut(w, t, parentSid, Parse(parentSid).value, x);
      }
    }
  }

  lemma ForkedParentCut(w: World, t: Triple, parentSid: string, p: Triple, x: World)
    requires Sound(w) && Clean(t) && t !in w.rows && Naming(t) !in w.rows.Values && Parse(parentSid) == Some(p)
    requires Cut(w, if p.key != t.key then Error(400) else ForkedParent(t, Naming(t), p), x)
    ensures SameStores(Fork(x, t, Naming(t), parentSid), Fork(w, t, Naming(t), parentSid))
    ensures ForkStatus(x, t, Naming(t), parentSid) == ForkStatus(w, t, Naming(t), parentSid)
  {
    ParseExactly(parentSid, p);
    if p.key != t.key {
      CutEnd(w, Status(Fail(400)), x);
    } else {
      ForkCut(w, t, Naming(t), p, x);
      ForkAgain(w, t, p, x);
    }
  }

  /** Where a cut run of an event other than a rename stopped, handling the event again leads to the
      rows, bookmarks and status of an uninterrupted run. */
  lemma CutThenAgain(w: World, e: Event, x: World)
    requires Sound(w) && Cut(w, OnEvent(e), x) && !e.Renamed?
    ensures SameStores(Handle(x, e), Handle(w, e)) && HandleStatus(x, e) == HandleStatus(w, e)
  {
    hide Create, Cut, Fork, Naming, Parse;
    var pc := OnEvent(e);
    if pc.End? {
      CutEnd(w, pc.out, x);
    } else {
      ParseExactly(e.sid, pc.t);
      match e {
        case Created(_) => CreatedCut(w, pc.t, x);
        case Forked(_, parentSid) => ForkedCut(w, pc.t, parentSid, x);
        case Deleted(_) => DeleteCut(w, pc.t, pc.sid, x); DeleteAgain(w, pc.t, x);
      }
    }
  }

  lemma CreatedCut(w: World, t: Triple, x: World)
    requires Cut(w, CreatedLookup(t, Naming(t), Return), x)
    ensures SameStores(Create(x, t, Naming(t)), Create(w, t, Naming(t)))
    ensures CreateStatus(x, t, Naming(t)) == CreateStatus(w, t, Naming(t))
  {
    CreateCut(w, t, Naming(t), Return, x);
    if CreateStage(w, t, Naming(t), x) {
      CreateAgain(w, t, Naming(t), x);
    } else {
      CutEnd(Create(w, t, Naming(t)), Status(CreateStatus(w, t, Naming(t))), x);
      CreateTwice(w, t, Naming(t));
    }
  }

  lemma CreateTwice(w: World, t: Triple, sid: string)
    ensures SameStores(Create(Create(w, t, sid), t, sid), Create(w, t, sid))
    ensures CreateStatus(Create(w, t, sid), t, sid) == CreateStatus(w, t, sid)
  {
    var w1 := Effect(w, PostRepo(t.key));
    if sid !in w.rows.Values {
      if !AnchorStatus(w1, t, Tip(MAIN)).Ok? {
        assert Effect(w1, PostRepo(t.key)) == w1;
      } else {
        assert EnsureStage(w1, t, Tip(MAIN), sid, Create(w, t, sid)) by {
          assert BindStage(Anchor(w1, t, Tip(MAIN)), t, sid, Create(w, t, sid));
        }
        assert CreateStage(w, t, sid, Create(w, t, sid));
        CreateAgain(w, t, sid, Create(w, t, sid));
      }
    }
  }

  /** Crash and redeliver, for created, forked and deleted events. */
  lemma RedeliveryFinishes(w: World, e: Event, x: World, w': World, o: Outcome)
    requires Sound(w) && !e.Renamed?
    requires Cut(w, OnEvent(e), x) && Finishes(Crashed(x), OnEvent(e), w', o)
    ensures SameStores(w', Handle(w, e)) && o == Status(HandleStatus(w, e))
  {
    EventFinishes(Crashed(x), e, w', o);
    HandleSame(Crashed(x), x, e);
    CutThenAgain(w, e, x);
  }

  /** Crash and redeliver, for renamed events: the rows are always right, and the bookmarks too unless
      the run was cut between moving the row and dropping the old bookmark; then just that bookmark
      is left over, without a row. */
  lemma RenameRedeliveryFinishes(w: World, from: Triple, to: Triple, x: World, w': World, o: Outcome)
    requires Sound(w) && Clean(from) && Clean(to) && from.key == to.key && from != to
    requires Cut(w, OnEvent(Renamed(Naming(from), Naming(to))), x)
    requires Finishes(Crashed(x), OnEvent(Renamed(Naming(from), Naming(to))), w', o)
    ensures var full := Handle(w, Renamed(Naming(from), Naming(to)));
            && w'.rows == full.rows && w'.sessions == full.sessions
            && o == Status(HandleStatus(w, Renamed(Naming(from), Naming(to))))
            && (w'.repos == full.repos <==> !LeavesOrphan(w, from, x))
            && (LeavesOrphan(w, from, x) ==>
                  HasBookmark(w', from) && from !in w'.rows && UnsetBookmark(w', from).repos == full.repos)
  {
    var e := Renamed(Naming(from), Naming(to));
    ParseExactly(Naming(from), from);
    ParseExactly(Naming(to), to);
    EventFinishes(Crashed(x), e, w', o);
    HandleSame(Crashed(x), x, e);
    RenameCut(w, from, to, x);
    RenameAgain(w, from, to, x);
    if LeavesOrphan(w, from, x) { RenameFromMiddle(w, from, to, x); }
  }
}
