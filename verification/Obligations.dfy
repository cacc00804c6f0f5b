/** Success in the thick of it: whatever runs beside it, a handler that has a workspace to bind reports success only if
    that workspace's row was in the table while it ran (events_sub.go, sessions_http.go, worksheets.go). */
module Obligations {
  import opened Names
  import opened Stores
  import opened Handlers
  import opened Interleaving
  import opened NamingInvariant
  import opened Isolation
  import opened Swallowed

  function OwedBy(u: Triple, k: Kont): Option<Triple> {
    match k
    case Inherit(t, _, _) => Some(t)
    case NextSession(_, _) => None
    case _ => Some(u)
  }

  function OwedFor(u: Triple, goal: Goal): Option<Triple> {
    match goal case Bind(_, k) => OwedBy(u, k) case Move(_) => Some(u)
  }

  /** The workspace a handler has yet to see bound. */
  function Owed(pc: Pc): Option<Triple> {
    match pc
    case TreeList(Ensure(u, _, goal)) => OwedFor(u, goal)
    case TreeScan(Ensure(u, _, goal), _, _, _) => OwedFor(u, goal)
    case CreatedLookup(u, _, k) => OwedBy(u, k)
    case CreatedRepo(u, _, k) => OwedBy(u, k)
    case CreatedProbe(u, _, k) => OwedBy(u, k)
    case BmCreate(u, _, goal) => OwedFor(u, goal)
    case BindInsert(u, _, k) => OwedBy(u, k)
    case BindManage(_, Inherit(t, _, _)) => Some(t)
    case ForkedLookup(t, _, _) => Some(t)
    case ForkedParent(t, _, _) => Some(t)
    case RenameGet(_, to) => Some(to)
    case RenameMove(_, to) => Some(to)
    case ForkAtLookup(t, _, _, _) => Some(t)
    case ForkAtRepo(t, _, _, _) => Some(t)
    case _ => None
  }

  predicate Failing(pc: Pc) {
    pc.End? && pc.out.Status? && pc.out.st.Fail?
  }

  predicate Present(w: World, t: Triple) {
    t in w.rows && w.rows[t] == Naming(t)
  }

  lemma OwedResume(u: Triple, k: Kont, st: Status)
    requires st.Fail? && OwedBy(u, k).Some?
    ensures Failing(Resume(k, st))
  {
  }

  lemma OwedTree(use: Use, todo: seq<Key>, tree: Tree)
    requires use.Ensure? && OwedFor(use.t, use.goal).Some?
    ensures var next := Scan(use, todo, tree); Owed(next) == OwedFor(use.t, use.goal) || Failing(next)
  {
  }

  lemma NamedRow(w: World, t: Triple, a: Resp)
    requires RowsNamed(w) && CleanKey(t.key) && Answers(w, GetRowBySession(Naming(t)), a) && a.row.Some?
    ensures Present(w, t)
  {
    var u := a.row.value.t;
    NamingHalfInjective(t, u);
  }

  /** What a call of such a handler leads to. */
  ghost predicate Pays(w: World, pc: Pc, e: Ev, t: Triple)
    requires !pc.End?
  {
    var next := Feed(pc, e.resp);
    Owed(next) == Some(t) || Failing(next) || Present(After(w, Request(pc), e), t)
  }

  lemma PaysEnsure(w: World, pc: Pc, e: Ev, t: Triple)
    requires GoodWorld(w) && Proper(pc) && InEnsure(pc) && !pc.CreatedLookup? && !pc.BindInsert?
    requires Legal(w, Request(pc), e) && Owed(pc) == Some(t)
    ensures Pays(w, pc, e, t)
  {
    hide Naming, GoodWorld, Clean, Legal;
    var a := e.resp;
    if pc.TreeList? { if a.Repos? { OwedTree(pc.use, a.keys, map[]); } }
    else if pc.TreeScan? { OwedTree(pc.use, pc.todo, pc.tree[pc.at := if a.Bms? then a.bms else {}]); }
  }

  lemma PaysLookup(w: World, pc: Pc, e: Ev, t: Triple)
    requires GoodWorld(w) && Proper(pc) && pc.CreatedLookup? && Legal(w, Request(pc), e) && Owed(pc) == Some(t)
    ensures Pays(w, pc, e, t)
  {
    hide Naming;
    if e.resp.Found? && e.resp.row.Some? && !pc.k.Inherit? { NamedRow(w, t, e.resp); }
  }

  lemma PaysBind(w: World, pc: Pc, e: Ev, t: Triple)
    requires GoodWorld(w) && Proper(pc) && pc.BindInsert? && Legal(w, Request(pc), e) && Owed(pc) == Some(t)
    ensures Pays(w, pc, e, t)
  {
    hide Naming;
    ConflictMeansBound(w, pc.t, pc.t);
  }

  lemma PaysHandler(w: World, pc: Pc, e: Ev, t: Triple)
    requires GoodWorld(w) && Proper(pc) && (pc.ForkedLookup? || pc.ForkedParent? || pc.RenameGet? || pc.ForkAtRepo?)
    requires Legal(w, Request(pc), e) && Owed(pc) == Some(t)
    ensures Pays(w, pc, e, t)
  {
    hide Naming, Parse;
    if pc.ForkedLookup? && e.resp.Found? && e.resp.row.Some? { NamedRow(w, t, e.resp); }
  }

  lemma PaysMove(w: World, pc: Pc, e: Ev, t: Triple)
    requires GoodWorld(w) && Proper(pc) && (pc.RenameMove? || pc.ForkAtLookup?)
    requires Legal(w, Request(pc), e) && Owed(pc) == Some(t)
    ensures Pays(w, pc, e, t)
  {
    hide Naming;
    if pc.RenameMove? { RenameTaken(w, pc.from, pc.to); }
    else if e.resp.Found? && e.resp.row.Some? { NamedRow(w, t, e.resp); }
  }

  lemma PaysStep(w: World, pc: Pc, e: Ev, t: Triple)
    requires GoodWorld(w) && Proper(pc) && !pc.End? && Legal(w, Request(pc), e) && Owed(pc) == Some(t)
    ensures Pays(w, pc, e, t)
  {
    hide Proper, GoodWorld, Legal, Request, Pays;
    if pc.CreatedLookup? { PaysLookup(w, pc, e, t); }
    else if pc.BindInsert? { PaysBind(w, pc, e, t); }
    else if InEnsure(pc) { PaysEnsure(w, pc, e, t); }
    else if pc.RenameMove? || pc.ForkAtLookup? { PaysMove(w, pc, e, t); }
    else { PaysHandler(w, pc, e, t); }
  }

  /** The workspace an event is to bind. */
  function BoundBy(e: Event): Option<Triple> {
    match e
    case Created(sid) => Parse(sid)
    case Forked(sid, _) => Parse(sid)
    case Renamed(_, to) => Parse(to)
    case Deleted(_) => None
  }

  /** Some state after j up to the n-th has the row of t in the table. */
  ghost predicate BoundSince(b: seq<Sys>, j: nat, n: nat, t: Triple) {
    exists k :: j < k <= n < |b| && Present(b[k].w, t)
  }

  /** Handler i was started on event e at step j and has not been lost in a crash up to state n. */
  ghost predicate Handles(b: seq<Sys>, acts: seq<Act>, i: nat, e: Event, j: nat, n: nat) {
    && j < n < |b| == |acts| + 1 && acts[j] == Spawn(i, OnEvent(e))
    && forall k :: j < k < n ==> !acts[k].Crash?
  }

  /** One action beside or by such a handler. */
  lemma PaysNext(s: Sys, act: Act, s': Sys, i: nat, t: Triple)
    requires Good(s) && Next(s, act, s') && i in s.procs && Owed(s.procs[i]) == Some(t) && !act.Crash?
    ensures i in s'.procs
    ensures Owed(s'.procs[i]) == Some(t) || Failing(s'.procs[i]) || Present(s'.w, t)
  {
    hide Proper, GoodWorld, Present, Owed, Feed, Request, Legal, After, Failing, Starts;
    if act.Call? && act.i == i { PaysStep(s.w, s.procs[i], act.e, t); }
  }

  /** A handler that has ended stays as it is until a crash. */
  lemma EndStays(s: Sys, act: Act, s': Sys, i: nat)
    requires Next(s, act, s') && i in s.procs && s.procs[i].End? && !act.Crash?
    ensures i in s'.procs && s'.procs[i] == s.procs[i]
  {
    hide Feed, Request, Legal, After, Starts;
  }

  lemma {:induction false} PaysUp(b: seq<Sys>, acts: seq<Act>, i: nat, e: Event, j: nat, n: nat, t: Triple)
    requires Behavior(b, acts) && Good(b[0]) && Handles(b, acts, i, e, j, n) && BoundBy(e) == Some(t)
    ensures i in b[n].procs
    ensures Owed(b[n].procs[i]) == Some(t) || Failing(b[n].procs[i]) || BoundSince(b, j, n, t)
    decreases n
  {
    hide Parse, Good, Present;
    assert Next(b[n - 1], acts[n - 1], b[n - 1 + 1]);
    if n > j + 1 {
      PaysUp(b, acts, i, e, j, n - 1, t);
      NamingHolds(b, acts, n - 1);
      if Owed(b[n - 1].procs[i]) == Some(t) { PaysNext(b[n - 1], acts[n - 1], b[n], i, t); }
      else if Failing(b[n - 1].procs[i]) { EndStays(b[n - 1], acts[n - 1], b[n], i); }
    }
  }

  /** In every run of the interleaved system, a created, forked or renamed event is reported as handled only if the
      row of its workspace was in the table at some moment since its handler began. */
  lemma HandledWasBound(b: seq<Sys>, acts: seq<Act>, i: nat, e: Event, j: nat, n: nat)
    requires Behavior(b, acts) && Good(b[0]) && Handles(b, acts, i, e, j, n) && !e.Deleted?
    requires i in b[n].procs && b[n].procs[i] == Stop(Ok)
    ensures BoundBy(e).Some? && BoundSince(b, j, n, BoundBy(e).value)
  {
    hide Naming;
    if BoundBy(e).Some? {
      PaysUp(b, acts, i, e, j, n, BoundBy(e).value);
    } else {
      StaysFailed(b, acts, i, e, j, n);
    }
  }

  lemma {:induction false} StaysFailed(b: seq<Sys>, acts: seq<Act>, i: nat, e: Event, j: nat, n: nat)
    requires Behavior(b, acts) && Handles(b, acts, i, e, j, n) && OnEvent(e) == Error(400)
    ensures i in b[n].procs && b[n].procs[i] == Error(400)
    decreases n
  {
    assert Next(b[n - 1], acts[n - 1], b[n - 1 + 1]);
    if n > j + 1 { StaysFailed(b, acts, i, e, j, n - 1); }
  }

  // ---- where a new bookmark is anchored ----

  /** Where a handler is once its calls have been answered so, whatever others did to the stores in between. */
  function Went(pc: Pc, evs: seq<Ev>): Pc
    decreases |evs|
  {
    if evs == [] || pc.End? then pc else Went(Feed(pc, evs[0].resp), evs[1..])
  }

  lemma {:induction false} WentWalking(use: Use, todo: seq<Key>, tree: Tree, evs: seq<Ev>)
    requires |evs| == |todo|
    ensures Went(Scan(use, todo, tree), evs) == UseTree(use, Walk(todo, evs, tree))
    decreases |todo|
  {
    hide UseTree, Resume;
    if todo != [] {
      WentWalking(use, todo[1..], tree[todo[0] := if evs[0].resp.Bms? then evs[0].resp.bms else {}], evs[1..]);
    } else {
      assert Scan(use, todo, tree) == UseTree(use, tree);
    }
  }

  /** A creation that has to make its bookmark makes it at `main` if the repository was there when probed, and at the
      head if it was unknown then, whatever happened since. */
  lemma AnchorIsChosen(t: Triple, sid: string, k: Kont, evs: seq<Ev>)
    requires |evs| >= 2 && (evs[0].resp.Bms? || evs[0].resp.NotFound?)
    requires evs[1].resp.Repos? && |evs| == 2 + |evs[1].resp.keys|
    requires var tree := Walk(evs[1].resp.keys, evs[2..], map[]); t.key in tree && !Shows(tree, t)
    ensures var pc := Went(CreatedProbe(t, sid, k), evs);
            !pc.End? && Request(pc) == CreateBookmark(t, if evs[0].resp.Bms? then Tip(MAIN) else Head)
  {
    var use := Ensure(t, if evs[0].resp.Bms? then Tip(MAIN) else Head, Bind(sid, k));
    var keys := evs[1].resp.keys;
    assert Went(CreatedProbe(t, sid, k), evs) == Went(TreeList(use), evs[1..]);
    assert evs[1..][1..] == evs[2..];
    assert Went(TreeList(use), evs[1..]) == Went(Scan(use, keys, map[]), evs[2..]);
    WentWalking(use, keys, map[], evs[2..]);
  }

  // ---- one creation among others ----

  /** On these answers the handler ends with this status, and not before the last of them. */
  predicate EndsWith(pc: Pc, evs: seq<Ev>, st: Status)
    decreases |evs|
  {
    if evs == [] then pc == Stop(st) else !pc.End? && EndsWith(Feed(pc, evs[0].resp), evs[1..], st)
  }

  /** In a creation made for its own sake. */
  predicate OnItsOwn(pc: Pc) {
    match pc
    case TreeList(Ensure(_, _, Bind(_, Return))) => true
    case TreeScan(Ensure(_, _, Bind(_, Return)), _, _, _) => true
    case CreatedLookup(_, _, Return) => true
    case CreatedRepo(_, _, Return) => true
    case CreatedProbe(_, _, Return) => true
    case BmCreate(_, _, Bind(_, Return)) => true
    case BindInsert(_, _, Return) => true
    case BindManage(_, Return) => true
    case End(Status(_)) => true
    case _ => false
  }

  /** The same point of a creation made for a caller. */
  function CalledBy(pc: Pc, k: Kont): Pc
    requires OnItsOwn(pc)
  {
    match pc
    case TreeList(Ensure(t, rev, Bind(sid, _))) => TreeList(Ensure(t, rev, Bind(sid, k)))
    case TreeScan(Ensure(t, rev, Bind(sid, _)), at, todo, tree) =>
      TreeScan(Ensure(t, rev, Bind(sid, k)), at, todo, tree)
    case CreatedLookup(t, sid, _) => CreatedLookup(t, sid, k)
    case CreatedRepo(t, sid, _) => CreatedRepo(t, sid, k)
    case CreatedProbe(t, sid, _) => CreatedProbe(t, sid, k)
    case BmCreate(t, rev, Bind(sid, _)) => BmCreate(t, rev, Bind(sid, k))
    case BindInsert(t, sid, _) => BindInsert(t, sid, k)
    case BindManage(key, _) => BindManage(key, k)
    case End(Status(st)) => Resume(k, st)
  }

  /** The same call, and the same way on whatever it is answered. */
  predicate SameStep(pc: Pc, k: Kont, a: Resp)
    requires OnItsOwn(pc) && !pc.End?
  {
    && OnItsOwn(Feed(pc, a)) && !CalledBy(pc, k).End?
    && Request(CalledBy(pc, k)) == Request(pc) && Feed(CalledBy(pc, k), a) == CalledBy(Feed(pc, a), k)
  }

  lemma CalledLists(pc: Pc, k: Kont, a: Resp)
    requires OnItsOwn(pc) && (pc.TreeList?)
    ensures SameStep(pc, k, a)
  {
    hide Backfill, Parse, Naming, Exec, DriftRows;
  }

  lemma CalledScans(pc: Pc, k: Kont, a: Resp)
    requires OnItsOwn(pc) && (pc.TreeScan?)
    ensures SameStep(pc, k, a)
  {
    hide Backfill, Parse, Naming, Exec, DriftRows;
  }

  lemma CalledCreates(pc: Pc, k: Kont, a: Resp)
    requires OnItsOwn(pc) && (pc.CreatedLookup? || pc.CreatedRepo? || pc.CreatedProbe?)
    ensures SameStep(pc, k, a)
  {
    hide Backfill, Parse, Naming, Exec, DriftRows;
  }

  lemma CalledBinds(pc: Pc, k: Kont, a: Resp)
    requires OnItsOwn(pc) && (pc.BmCreate? || pc.BindInsert? || pc.BindManage?)
    ensures SameStep(pc, k, a)
  {
    hide Backfill, Parse, Naming, Exec, DriftRows;
  }

  lemma CalledStep(pc: Pc, k: Kont, a: Resp)
    requires OnItsOwn(pc) && !pc.End?
    ensures SameStep(pc, k, a)
  {
    hide SameStep;
    if pc.TreeList? { CalledLists(pc, k, a); }
    else if pc.TreeScan? { CalledScans(pc, k, a); }
    else if pc.CreatedLookup? || pc.CreatedRepo? || pc.CreatedProbe? { CalledCreates(pc, k, a); }
    else { CalledBinds(pc, k, a); }
  }

  lemma {:induction false} CalledEnds(pc: Pc, k: Kont, evs: seq<Ev>, st: Status)
    requires OnItsOwn(pc) && EndsWith(pc, evs, st)
    ensures Went(CalledBy(pc, k), evs) == Resume(k, st)
    decreases |evs|
  {
    hide Feed, Resume;
    if evs != [] {
      CalledStep(pc, k, evs[0].resp);
      CalledEnds(Feed(pc, evs[0].resp), k, evs[1..], st);
    } else {
      assert CalledBy(pc, k) == Resume(k, st);
    }
  }

  /** Whatever others do, a creation within a pass goes as it would on its own; where that ends in success or in a
      permanent error the pass goes on with the next session, and where it ends in a 5xx status so does the pass. */
  lemma PassGoesOn(t: Triple, sid: string, rest: seq<string>, mapped: set<string>, evs: seq<Ev>, st: Status)
    requires EndsWith(CreatedLookup(t, sid, Return), evs, st)
    ensures Went(CreatedLookup(t, sid, NextSession(rest, mapped)), evs)
            == if st.Ok? || st.code < 500 then Backfill(rest, mapped) else Stop(st)
  {
    hide EndsWith, Went;
    CalledEnds(CreatedLookup(t, sid, Return), NextSession(rest, mapped), evs, st);
  }

  /** Nor does a fork go on after its parent could not be materialised. */
  lemma ForkGoesOn(p: Triple, t: Triple, sid: string, evs: seq<Ev>, st: Status)
    requires EndsWith(CreatedLookup(p, Naming(p), Return), evs, st)
    ensures Went(CreatedLookup(p, Naming(p), Inherit(t, sid, p.bm)), evs)
            == if st.Ok? then TreeList(Ensure(t, Tip(p.bm), Bind(sid, Return))) else Stop(st)
  {
    hide EndsWith, Went, Naming;
    CalledEnds(CreatedLookup(p, Naming(p), Return), Inherit(t, sid, p.bm), evs, st);
  }
}
