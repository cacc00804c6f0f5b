/** A run of lifecycle events handled in order and without faults refines a plain map from session to
    commit: create takes `main`, fork takes the parent's commit at fork time, rename moves, delete
    removes (events_sub.go). Commits to `main` and to session bookmarks may come in between. */
module Refinement {
  import opened Strs
  import opened Names
  import opened Stores
  import opened Handlers
  import opened BigStep
  import opened Recovery

  /** One repository as its users see it: the commit of `main`, and the commit each session works at.
      A session is known by its bookmark name; `stale` names belong to bookmarks bound to nothing. */
  datatype Book = Book(live: bool, trunk: Commit, work: map<string, Commit>, stale: set<string>)

  datatype Op =
    | OpCreate(b: string)
    | OpFork(b: string, parent: string)
    | ForkAlien(b: string, parentSid: string)   // the parent has no derived name
    | OpRename(from: string, to: string)
    | OpDelete(b: string)
    | CommitTo(b: string, c: Commit)

  function Add(a: Book, b: string, c: Commit): Book {
    a.(live := true, work := a.work[b := c])
  }

  function Open(a: Book, b: string): Book {
    if b in a.work then a else Add(a, b, a.trunk)
  }

  /** The abstract operation. */
  function Apply(a: Book, op: Op): Book {
    match op
    case OpCreate(b) => Open(a, b)
    case OpFork(b, parent) => if b in a.work then a else Add(Open(a, parent), b, Open(a, parent).work[parent])
    case ForkAlien(b, _) => if b in a.work then a else Add(a, b, a.trunk)
    case OpRename(from, to) =>
      if from in a.work then a.(work := a.work[to := a.work[from]] - {from}) else Open(a, to)
    case OpDelete(b) => a.(work := a.work - {b})
    case CommitTo(b, c) =>
      var a1 := if b in a.work then a.(work := a.work[b := c]) else a;
      if b == MAIN then a1.(trunk := c) else a1
  }

  /** The event that asks for the operation. */
  function EventOf(key: Key, op: Op): Event
    requires !op.CommitTo?
  {
    match op
    case OpCreate(b) => Created(Naming(Triple(key, b)))
    case OpFork(b, parent) => Forked(Naming(Triple(key, b)), Naming(Triple(key, parent)))
    case ForkAlien(b, parentSid) => Forked(Naming(Triple(key, b)), parentSid)
    case OpRename(from, to) => Renamed(Naming(Triple(key, from)), Naming(Triple(key, to)))
    case OpDelete(b) => Deleted(Naming(Triple(key, b)))
  }

  predicate New(a: Book, b: string) {
    Free(b, ':') && b !in a.work && b !in a.stale
  }

  /** Derived, fresh names; `main` is never forked onto, renamed or deleted. Redelivered creates, forks
      and deletes are fine. */
  predicate Fits(a: Book, op: Op) {
    match op
    case OpCreate(b) => b in a.work || New(a, b)
    case OpFork(b, parent) =>
      b in a.work || (New(a, b) && b != MAIN && b != parent && (parent in a.work || New(a, parent)))
    case ForkAlien(b, parentSid) => Parse(parentSid).None? && (b in a.work || (New(a, b) && b != MAIN && a.live))
    case OpRename(from, to) => Free(from, ':') && from != MAIN && from != to && New(a, to) && to != MAIN
    case OpDelete(b) => Free(b, ':') && b != MAIN
    case CommitTo(b, _) => a.live && (b == MAIN || b in a.work)
  }

  /** The stores show exactly the book. */
  ghost predicate Refines(w: World, key: Key, a: Book) {
    && RowsNamed(w) && CleanKey(key)
    && (a.live <==> key in w.repos)
    && (if a.live then MAIN in w.repos[key].bms && w.repos[key].bms[MAIN] == a.trunk else a.trunk == ROOT)
    && (forall b :: b in a.work <==> Triple(key, b) in w.rows)
    && (forall b :: b in a.work ==> a.live && b in w.repos[key].bms && w.repos[key].bms[b] == a.work[b])
    && (a.live ==> forall b :: b in w.repos[key].bms ==> b == MAIN || b in a.work || b in a.stale)
  }

  lemma Mapped(w: World, key: Key, a: Book, b: string)
    requires Refines(w, key, a) && Free(b, ':')
    ensures var t := Triple(key, b); Clean(t) && (Naming(t) in w.rows.Values <==> b in a.work)
  {
    ConflictMeansBound(w, Triple(key, b), Triple(key, b));
  }

  lemma CreateRefines(w: World, key: Key, a: Book, b: string)
    requires Refines(w, key, a) && (b in a.work || New(a, b))
    ensures var t := Triple(key, b);
            Refines(Create(w, t, Naming(t)), key, Open(a, b)) && CreateStatus(w, t, Naming(t)).Ok?
  {
    var t := Triple(key, b);
    if b in a.work {
      assert t in w.rows && w.rows[t] == Naming(t);
    } else {
      Mapped(w, key, a, b);
      var w1 := Effect(w, PostRepo(key));
      RepoRefines(w, key, a);
      EnsureRefines(w1, key, a.(live := true), b, MAIN, a.trunk);
    }
  }

  lemma RepoRefines(w: World, key: Key, a: Book)
    requires Refines(w, key, a)
    ensures Refines(Effect(w, PostRepo(key)), key, a.(live := true))
  {
  }

  /** What EnsureBookmark and bindRow do for an unmapped session. */
  lemma EnsureStores(w: World, t: Triple, src: string, c: Commit)
    requires Clean(t) && RowsNamed(w) && t !in w.rows && t.key in w.repos
    requires src in w.repos[t.key].bms && w.repos[t.key].bms[src] == c
    requires HasBookmark(w, t) ==> Position(w, t) == c
    ensures AnchorStatus(w, t, Tip(src)).Ok?
    ensures var w2 := Ensured(w, t, Tip(src), Naming(t));
            w2.rows == w.rows[t := Naming(t)]
            && w2.repos == w.repos[t.key := w.repos[t.key].(bms := w.repos[t.key].bms[t.bm := c])]
  {
    var w1 := Anchor(w, t, Tip(src));
    assert w1.rows == w.rows;
    ConflictMeansBound(w1, t, t);
    if HasBookmark(w, t) {
      assert w.repos[t.key].bms[t.bm := c] == w.repos[t.key].bms;
      assert w.repos[t.key := w.repos[t.key]] == w.repos;
    }
  }

  /** The source bookmark's commit becomes the session's. */
  lemma EnsureRefines(w: World, key: Key, a: Book, b: string, src: string, c: Commit)
    requires Refines(w, key, a) && a.live && New(a, b)
    requires src in w.repos[key].bms && w.repos[key].bms[src] == c
    requires b == MAIN ==> c == a.trunk
    ensures var t := Triple(key, b);
            Refines(Ensured(w, t, Tip(src), Naming(t)), key, Add(a, b, c)) && AnchorStatus(w, t, Tip(src)).Ok?
  {
    var t := Triple(key, b);
    EnsureStores(w, t, src, c);
    AddedRefines(w, key, a, b, c, Ensured(w, t, Tip(src), Naming(t)));
  }

  lemma AddedRefines(w: World, key: Key, a: Book, b: string, c: Commit, w2: World)
    requires Refines(w, key, a) && a.live && Free(b, ':') && (b == MAIN ==> c == a.trunk)
    requires w2.rows == w.rows[Triple(key, b) := Naming(Triple(key, b))]
    requires w2.repos == w.repos[key := w.repos[key].(bms := w.repos[key].bms[b := c])]
    ensures Refines(w2, key, Add(a, b, c))
  {
  }

  lemma ForkRefines(w: World, key: Key, a: Book, b: string, parent: string)
    requires Refines(w, key, a) && Fits(a, OpFork(b, parent))
    ensures var t, p := Triple(key, b), Triple(key, parent);
            b !in a.work ==> Refines(ForkFrom(w, t, Naming(t), p), key, Apply(a, OpFork(b, parent)))
                             && ForkFromStatus(w, t, p).Ok?
  {
    var p := Triple(key, parent);
    if b !in a.work {
      if parent in a.work {
        EnsureRefines(w, key, a, b, parent, a.work[parent]);
      } else {
        CreateRefines(w, key, a, parent);
        EnsureRefines(Create(w, p, Naming(p)), key, Open(a, parent), b, parent, a.trunk);
      }
    }
  }

  lemma RenameRefines(w: World, key: Key, a: Book, from: string, to: string)
    requires Refines(w, key, a) && Fits(a, OpRename(from, to))
    ensures var f, t := Triple(key, from), Triple(key, to);
            Refines(Rename(w, f, t), key, Apply(a, OpRename(from, to))) && RenameStatus(w, f, t).Ok?
  {
    if from in a.work { MoveRefines(w, key, a, from, to); } else { CreateRefines(w, key, a, to); }
  }

  lemma MoveRefines(w: World, key: Key, a: Book, from: string, to: string)
    requires Refines(w, key, a) && Fits(a, OpRename(from, to)) && from in a.work
    ensures var f, t := Triple(key, from), Triple(key, to);
            Refines(Rename(w, f, t), key, Apply(a, OpRename(from, to))) && RenameStatus(w, f, t).Ok?
  {
    hide Naming, Rename, RenameStatus, Clean;
    var f, t, c := Triple(key, from), Triple(key, to), a.work[from];
    MoveAnchors(w, key, a, from, to);
    MoveShape(w, f, t, c);
    var mid := SetBookmark(w, t, c).(rows := w.rows[t := Naming(t)]);
    AddedRefines(w, key, a, to, c, mid);
    RemovedRefines(mid, key, Add(a, to, c), from, Rename(w, f, t));
  }

  /** The rows and bookmarks of a rename to a new name. */
  lemma MoveShape(w: World, f: Triple, t: Triple, c: Commit)
    requires RowsNamed(w) && Clean(f) && Clean(t) && f != t && f.key == t.key && f in w.rows && t !in w.rows
    requires HasBookmark(w, f) && RenameStatus(w, f, t).Ok? && Anchor(w, t, Tip(f.bm)) == SetBookmark(w, t, c)
    ensures var z, w1 := Rename(w, f, t), SetBookmark(w, t, c);
            z.rows == w.rows[t := Naming(t)] - {f} && z.repos == UnsetBookmark(w1, f).repos
  {
    hide Naming;
    var w1 := SetBookmark(w, t, c);
    ConflictMeansBound(w1, t, f);
    MoveStores(w1, f, t);
  }

  lemma MoveAnchors(w: World, key: Key, a: Book, from: string, to: string)
    requires Refines(w, key, a) && Fits(a, OpRename(from, to)) && from in a.work
    ensures var f, t := Triple(key, from), Triple(key, to);
            && Clean(f) && Clean(t) && f in w.rows && t !in w.rows && RenameStatus(w, f, t).Ok?
            && Anchor(w, t, Tip(from)) == SetBookmark(w, t, a.work[from])
  {
    assert Clean(Triple(key, from));
    assert CanCreate(w, Triple(key, to), Tip(from));
  }

  lemma RemovedRefines(w: World, key: Key, a: Book, b: string, w2: World)
    requires Refines(w, key, a) && a.live && b != MAIN && b in a.work
    requires w2.rows == w.rows - {Triple(key, b)}
    requires w2.repos == w.repos[key := w.repos[key].(bms := w.repos[key].bms - {b})]
    ensures Refines(w2, key, a.(work := a.work - {b}))
  {
  }

  lemma DeleteRefines(w: World, key: Key, a: Book, b: string)
    requires Refines(w, key, a) && Fits(a, OpDelete(b))
    ensures var t := Triple(key, b); Refines(Delete(w, t, Naming(t)), key, Apply(a, OpDelete(b)))
  {
    var t := Triple(key, b);
    Mapped(w, key, a, b);
    DeleteStores(w, t, Naming(t));
    if b in a.work {
      RemovedRefines(w, key, a, b, Delete(w, t, Naming(t)));
    } else {
      assert a.work - {b} == a.work;
    }
  }

  lemma CommitRefines(w: World, key: Key, a: Book, b: string, c: Commit)
    requires Refines(w, key, a) && Fits(a, CommitTo(b, c))
    ensures Refines(SetBookmark(w, Triple(key, b), c), key, Apply(a, CommitTo(b, c)))
  {
  }

  // ---- one event ----

  /** One fault-free handler run is one abstract operation, and reports success. */
  lemma EventRefines(w: World, key: Key, a: Book, op: Op)
    requires Refines(w, key, a) && Fits(a, op) && !op.CommitTo?
    ensures Refines(Handle(w, EventOf(key, op)), key, Apply(a, op)) && HandleStatus(w, EventOf(key, op)).Ok?
  {
    hide Naming, Rename, Delete;
    var b := if op.OpRename? then op.from else op.b;
    if b in a.work { assert Clean(Triple(key, b)); }
    ParseExactly(Naming(Triple(key, b)), Triple(key, b));
    if op.OpCreate? { CreateRefines(w, key, a, b); }
    else if op.OpDelete? { DeleteRefines(w, key, a, b); }
    else if op.OpRename? { RenamedRefines(w, key, a, op.from, op.to); }
    else { ForkedRefines(w, key, a, op); }
  }

  lemma RenamedRefines(w: World, key: Key, a: Book, from: string, to: string)
    requires Refines(w, key, a) && Fits(a, OpRename(from, to))
    ensures var e := EventOf(key, OpRename(from, to));
            Refines(Handle(w, e), key, Apply(a, OpRename(from, to))) && HandleStatus(w, e).Ok?
  {
    hide Naming, Parse, Rename;
    ParseExactly(Naming(Triple(key, from)), Triple(key, from));
    ParseExactly(Naming(Triple(key, to)), Triple(key, to));
    RenameRefines(w, key, a, from, to);
  }

  lemma ForkedRefines(w: World, key: Key, a: Book, op: Op)
    requires Refines(w, key, a) && Fits(a, op) && (op.OpFork? || op.ForkAlien?)
    ensures Refines(Handle(w, EventOf(key, op)), key, Apply(a, op)) && HandleStatus(w, EventOf(key, op)).Ok?
  {
    if op.b in a.work { ForkAgainRefines(w, key, a, op); }
    else if op.OpFork? { ForkDerived(w, key, a, op); }
    else { ForkFromMain(w, key, a, op); }
  }

  lemma ForkAgainRefines(w: World, key: Key, a: Book, op: Op)
    requires Refines(w, key, a) && (op.OpFork? || op.ForkAlien?) && op.b in a.work
    ensures Refines(Handle(w, EventOf(key, op)), key, Apply(a, op)) && HandleStatus(w, EventOf(key, op)).Ok?
  {
    hide Naming;
    assert Clean(Triple(key, op.b));
    ParseExactly(Naming(Triple(key, op.b)), Triple(key, op.b));
    Mapped(w, key, a, op.b);
  }

  lemma ForkFromMain(w: World, key: Key, a: Book, op: Op)
    requires Refines(w, key, a) && op.ForkAlien? && Fits(a, op) && op.b !in a.work
    ensures Refines(Handle(w, EventOf(key, op)), key, Apply(a, op)) && HandleStatus(w, EventOf(key, op)).Ok?
  {
    hide Naming;
    ParseExactly(Naming(Triple(key, op.b)), Triple(key, op.b));
    Mapped(w, key, a, op.b);
    EnsureRefines(w, key, a, op.b, MAIN, a.trunk);
  }

  lemma ForkDerived(w: World, key: Key, a: Book, op: Op)
    requires Refines(w, key, a) && op.OpFork? && Fits(a, op) && op.b !in a.work
    ensures Refines(Handle(w, EventOf(key, op)), key, Apply(a, op)) && HandleStatus(w, EventOf(key, op)).Ok?
  {
    hide Apply, Parse;
    var t, p := Triple(key, op.b), Triple(key, op.parent);
    assert Free(op.parent, ':') by { if op.parent in a.work { assert Clean(p); } }
    ParseExactly(Naming(t), t);
    ParseExactly(Naming(p), p);
    Mapped(w, key, a, op.b);
    ForkRefines(w, key, a, op.b, op.parent);
  }
}
