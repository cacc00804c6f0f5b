/** Every handler ends: whatever the calls answer, each answer brings it closer to its end. So from any
    state of the stores there is a fault-free run of every handler, and what is proved about those runs
    is not about nothing. */
module Termination {
  import opened Names
  import opened Stores
  import opened Handlers
  import opened BigStep

  // ---- a measure: phase of the handler, work its caller still has, stage, lists still to go through ----

  function Phase(pc: Pc): nat {
    match pc
    case End(_) => 0
    case PassOrder(_, _) => 2
    case PassRows(_) => 3
    case DriftList(_, _, _, _) => 4
    case DriftDelete(_, _, _, _, _, _) => 4
    case DriftEvict(_, _, _, _, _, _) => 4
    case TreeList(use) => if use.Drift? then 5 else 1
    case TreeScan(use, _, _, _) => if use.Drift? then 5 else 1
    case PassManaged(_) => 6
    case PassSessions => 7
    case WsStart(_, _) => 8
    case WsClaim(_, _) => 9
    case _ => 1
  }

  function KontWork(k: Kont): nat {
    match k
    case Return => 0
    case NextSession(rest, _) => |rest| + 2
    case _ => 1
  }

  function GoalWork(goal: Goal): nat {
    match goal case Bind(_, k) => KontWork(k) case Move(_) => 0
  }

  function UseWork(use: Use): nat {
    if use.Ensure? then GoalWork(use.goal) else 0
  }

  function Work(pc: Pc): nat {
    match pc
    case TreeList(use) => UseWork(use)
    case TreeScan(use, _, _, _) => UseWork(use)
    case CreatedLookup(_, _, k) => KontWork(k)
    case CreatedRepo(_, _, k) => KontWork(k)
    case CreatedProbe(_, _, k) => KontWork(k)
    case BmCreate(_, _, goal) => GoalWork(goal)
    case BindInsert(_, _, k) => KontWork(k)
    case BindManage(_, k) => KontWork(k)
    case ForkedLookup(_, _, _) => 2
    case ForkedParent(_, _, _) => 2
    case ForkAtLookup(_, _, _, _) => 2
    case ForkAtRepo(_, _, _, _) => 2
    case _ => 0
  }

  function Stage(pc: Pc): nat {
    match pc
    case WithdrawSession(_, _) => 18
    case WithdrawLookup(_, _) => 17
    case RenameGet(_, _) => 16
    case DeletedLookup(_, _) => 16
    case ForkedLookup(_, _, _) => 16
    case ForkAtLookup(_, _, _, _) => 16
    case AdoptGet(_) => 16
    case ResolveHit(_) => 16
    case CreatedLookup(_, _, _) => 15
    case ForkedParent(_, _, _) => 15
    case ForkAtRepo(_, _, _, _) => 15
    case ResolveRow(_) => 15
    case CreatedRepo(_, _, _) => 14
    case CreatedProbe(_, _, _) => 13
    case TreeList(use) => if use.Drop? then 7 else 12
    case TreeScan(use, _, _, _) => if use.Drop? then 6 else 11
    case BmCreate(_, _, _) => 10
    case AdoptSession(_) => 10
    case BindInsert(_, _, _) => 9
    case RenameMove(_, _) => 9
    case RenameEvict(_) => 8
    case DropCall(_, _) => 5
    case UnmapRow(_, _) => 4
    case UnmapEvict(_) => 3
    case DriftList(_, ms, _, _) => 2 * |ms| + 1
    case DriftDelete(_, _, _, ms, _, _) => 2 * |ms|
    case DriftEvict(_, _, _, ms, _, _) => 2 * |ms|
    case _ => 1
  }

  function Lists(pc: Pc): nat {
    match pc
    case TreeScan(_, _, todo, _) => |todo|
    case DriftDelete(_, rows, _, _, _, _) => 2 * |rows| + 1
    case DriftEvict(_, rows, _, _, _, _) => 2 * |rows|
    case _ => 0
  }

  predicate Closer(next: Pc, pc: Pc) {
    Phase(next) < Phase(pc) || (Phase(next) == Phase(pc) &&
      (Work(next) < Work(pc) || (Work(next) == Work(pc) &&
        (Stage(next) < Stage(pc) || (Stage(next) == Stage(pc) && Lists(next) < Lists(pc))))))
  }

  // ---- each answer brings the handler closer to its end ----

  /** A session to backfill, or the end. */
  lemma {:induction false} BackfillWork(rest: seq<string>, mapped: set<string>)
    ensures var next := Backfill(rest, mapped); Phase(next) <= 1 && (next.End? || Work(next) <= |rest| + 1)
  {
    if rest != [] { BackfillWork(rest[1..], mapped); }
  }

  lemma ResumeWork(k: Kont, st: Status)
    ensures var next := Resume(k, st); next.End? || (Phase(next) == 1 && Work(next) < KontWork(k))
  {
    if k.NextSession? { BackfillWork(k.rest, k.mapped); }
  }

  lemma DriftRepoWork(ms: seq<Key>, tree: Tree, live: set<string>)
    ensures var next := DriftRepo(ms, tree, live);
            Phase(next) == 3 || (next.DriftList? && Stage(next) < 2 * |ms|)
  {
  }

  lemma {:induction false} DriftRowsWork(rows: seq<Row>, m: Key, ms: seq<Key>, tree: Tree, live: set<string>)
    ensures var next := DriftRows(rows, m, ms, tree, live);
            Phase(next) == 3 || (Phase(next) == 4 && Work(next) == 0 &&
              (Stage(next) < 2 * |ms| || (Stage(next) == 2 * |ms| && Lists(next) < 2 * |rows|)))
  {
    if rows == [] { DriftRepoWork(ms, tree, live); } else { DriftRowsWork(rows[1..], m, ms, tree, live); }
  }

  lemma CloserTree(pc: Pc, a: Resp)
    requires pc.TreeList? || pc.TreeScan?
    ensures Closer(Feed(pc, a), pc)
  {
    var use := pc.use;
    if use.Ensure? && use.goal.Bind? {
      ResumeWork(use.goal.k, Fail(404));
      ResumeWork(use.goal.k, Fail(502));
    }
  }

  lemma CloserEnsure(pc: Pc, a: Resp)
    requires InEnsure(pc) && !pc.TreeList? && !pc.TreeScan?
    ensures Closer(Feed(pc, a), pc)
  {
    if pc.BmCreate? {
      if pc.goal.Bind? { ResumeWork(pc.goal.k, Fail(502)); }
    } else {
      ResumeWork(pc.k, Ok);
      ResumeWork(pc.k, Fail(502));
    }
  }

  lemma CloserPass(pc: Pc, a: Resp)
    requires InPass(pc)
    ensures Closer(Feed(pc, a), pc)
  {
    if pc.DriftList? { if a.Rows? { DriftRowsWork(a.rows, pc.m, pc.ms, pc.tree, pc.live); } }
    else if pc.DriftEvict? { DriftRowsWork(pc.rows, pc.m, pc.ms, pc.tree, pc.live); }
    else if pc.PassOrder? && a.Order? { BackfillWork(a.names, pc.mapped); }
  }

  lemma CloserWorksheet(pc: Pc, a: Resp)
    requires InWorksheet(pc)
    ensures Closer(Feed(pc, a), pc)
  {
  }

  lemma CloserHandler(pc: Pc, a: Resp)
    requires InHandler(pc)
    ensures Closer(Feed(pc, a), pc)
  {
  }

  lemma AnswersBringCloser(pc: Pc, a: Resp)
    requires !pc.End?
    ensures Closer(Feed(pc, a), pc)
  {
    if pc.TreeList? || pc.TreeScan? { CloserTree(pc, a); }
    else if InEnsure(pc) { CloserEnsure(pc, a); }
    else if InPass(pc) { CloserPass(pc, a); }
    else if InWorksheet(pc) { CloserWorksheet(pc, a); }
    else { CloserHandler(pc, a); }
  }

  // ---- every call has an answer ----

  lemma {:induction false} EnumerationExists<T(!new)>(xs: set<T>) returns (s: seq<T>)
    ensures Enumerates(s, xs)
  {
    if xs == {} {
      s := [];
    } else {
      var x :| x in xs;
      var rest := EnumerationExists(xs - {x});
      s := [x] + rest;
    }
  }

  lemma AnswerExists(w: World, q: Req) returns (a: Resp)
    ensures Answers(w, q, a) && !a.Failed?
  {
    if q.ListRepos? { var s := EnumerationExists(w.repos.Keys); a := Repos(s); }
    else if q.ListManaged? { var s := EnumerationExists(w.managed); a := Repos(s); }
    else if q.ListRows? { var s := EnumerationExists(RowSet(w)); a := Rows(s); }
    else if q.ListRowsForRepo? { var s := EnumerationExists(set r | r in RowSet(w) && r.t.key == q.key); a := Rows(s); }
    else if q.Shuffle? { var s := EnumerationExists(q.names); a := Order(s); }
    else if q.GetRowBySession? { a := RowOf(w, q.sid); }
    else { a := PlainAnswer(w, q); }
  }

  lemma RowOf(w: World, sid: string) returns (a: Resp)
    ensures Answers(w, GetRowBySession(sid), a) && !a.Failed?
  {
    if sid in w.rows.Values {
      var t :| t in w.rows && w.rows[t] == sid;
      a := Found(Some(Row(t, sid)));
    } else {
      a := Found(None);
    }
  }

  lemma PlainAnswer(w: World, q: Req) returns (a: Resp)
    requires !q.ListRepos? && !q.ListManaged? && !q.ListRows? && !q.ListRowsForRepo?
    requires !q.Shuffle? && !q.GetRowBySession?
    ensures Answers(w, q, a) && !a.Failed?
  {
    a := match q
      case ListSessions => Sids(w.sessions)
      case ForkSession(parent, _) => if parent in w.sessions then Done else Refused
      case ListBookmarks(key) => if key in w.repos then Bms(w.repos[key].bms.Keys) else NotFound
      case CreateBookmark(t, rev) => if CanCreate(w, t, rev) then Done else Refused
      case DropBookmark(t) => if HasBookmark(w, t) then Done else Refused
      case GetRow(t) => Found(if t in w.rows then Some(Row(t, w.rows[t])) else None)
      case InsertRow(t, sid) => if Taken(w.rows, t, sid) then Conflict else Done
      case RenameRow(from, to, sid) =>
        if from !in w.rows then NotFound else if Taken(w.rows - {from}, to, sid) then Conflict else Done
      case Claim(id) => First(id !in w.claimed)
      case CacheGet(sid) => Hit(if sid in w.cache && w.now <= w.cache[sid].exp then Some(w.cache[sid].t) else None)
      case _ => Done;
  }

  // ---- every handler can run to its end ----

  lemma StepBack(w: World, pc: Pc, a: Resp, w': World, o: Outcome)
    requires !pc.End? && !a.Failed? && Answers(w, Request(pc), a)
    requires Finishes(Effect(w, Request(pc)), Feed(pc, a), w', o)
    ensures Finishes(w, pc, w', o)
  {
    hide Feed, Request, Effect, Answers;
    var evs: seq<Ev> :| FaultFree(evs) && Path(Effect(w, Request(pc)), Feed(pc, a), evs, w', End(o));
    var all := [Ev(a, true)] + evs;
    assert all[1..] == evs;
    assert FaultFree(all) && Path(w, pc, all, w', End(o));
  }

  /** From every state of the stores every handler has a fault-free run to its end. */
  lemma {:induction false} EveryHandlerEnds(w: World, pc: Pc) returns (w': World, o: Outcome)
    ensures Finishes(w, pc, w', o)
    decreases Phase(pc), Work(pc), Stage(pc), Lists(pc)
  {
    if pc.End? {
      w', o := w, pc.out;
      assert FaultFree([]) && Path(w, pc, [], w', End(o));
    } else {
      var a := AnswerExists(w, Request(pc));
      AnswersBringCloser(pc, a);
      w', o := EveryHandlerEnds(Effect(w, Request(pc)), Feed(pc, a));
      StepBack(w, pc, a, w', o);
    }
  }
}
