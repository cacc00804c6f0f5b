/** The fork pin: a fork worksheet with a base revision anchors its new bookmark at that revision
    and nowhere else, however its execution interleaves with lifecycle events, redeliveries, other
    worksheets, adoptions and reconcile passes (worksheets.go, events_sub.go, reconcile.go). */
module Pin {
  import opened Names
  import opened Stores
  import opened Handlers
  import opened Interleaving
  import opened NamingInvariant
  import opened Spared

  /** The fork asked for: new bookmark bm, its session Naming(bm), base revision. */
  datatype Fork = Fork(bm: Triple, base: Commit) {
    function Sid(): string { Naming(bm) }
  }

  predicate FreshName(f: Fork) {
    Clean(f.bm) && f.bm.bm != MAIN
  }

  /** Neither bookmark, session nor row exists yet. */
  predicate Virgin(w: World, f: Fork) {
    !HasBookmark(w, f.bm) && f.Sid() !in w.sessions && f.bm !in w.rows
  }

  predicate Pinned(w: World, f: Fork) {
    Stands(w, f.bm, f.base)
  }

  predicate ShyKont(k: Kont, f: Fork) {
    match k
    case Return => true
    case Inherit(t, _, _) => t != f.bm
    case NextSession(rest, _) => f.Sid() !in rest
    case AgentFork(_, sid) => sid != f.Sid()
  }

  /** Creates the new bookmark at the base revision only, and on behalf of the fork only. */
  predicate ShyGoal(t: Triple, rev: Rev, goal: Goal, f: Fork) {
    if t == f.bm then rev == At(f.base) && goal.Bind? && goal.k.AgentFork? && goal.sid == goal.k.sid == f.Sid()
    else goal.Bind? ==> ShyKont(goal.k, f)
  }

  predicate ShyUse(use: Use, f: Fork) {
    match use
    case Ensure(t, rev, goal) => ShyGoal(t, rev, goal, f)
    case Drift(_, live) => f.Sid() !in live
    case _ => true
  }

  predicate ShyForkAt(t: Triple, sid: string, rev: Rev, f: Fork) {
    if t == f.bm then rev == At(f.base) && sid == f.Sid() else sid != f.Sid()
  }

  predicate ShyJob(job: Job, f: Fork) {
    var pc := Exec(job);
    pc.ForkAtLookup? ==> ShyForkAt(pc.t, pc.sid, pc.rev, f)
  }

  /** As long as the new session does not exist, the handler works for the fork or on something else. */
  predicate Shy(pc: Pc, f: Fork) {
    match pc
    case TreeList(use) => ShyUse(use, f)
    case TreeScan(use, _, _, tree) => ShyUse(use, f) && !Shows(tree, f.bm)
    case CreatedLookup(t, _, k) => t != f.bm && ShyKont(k, f)
    case CreatedRepo(t, _, k) => t != f.bm && ShyKont(k, f)
    case CreatedProbe(t, _, k) => t != f.bm && ShyKont(k, f)
    case BmCreate(t, rev, goal) => ShyGoal(t, rev, goal, f)
    case BindInsert(t, _, k) => t != f.bm && ShyKont(k, f)
    case BindManage(_, k) => ShyKont(k, f)
    case ForkedLookup(t, _, parentSid) => t != f.bm && parentSid != f.Sid()
    case ForkedParent(t, _, p) => t != f.bm && p != f.bm
    case RenameGet(_, to) => to != f.bm
    case RenameMove(_, to) => to != f.bm
    case AdoptSession(t) => t != f.bm
    case AdoptInsert(t) => t != f.bm
    case WsClaim(_, job) => ShyJob(job, f)
    case WsStart(_, job) => ShyJob(job, f)
    case ForkAtLookup(t, sid, rev, _) => ShyForkAt(t, sid, rev, f)
    case ForkAtRepo(t, sid, rev, _) => ShyForkAt(t, sid, rev, f)
    case AgentForkCall(_, sid) => sid != f.Sid()
    case PassManaged(live) => f.Sid() !in live
    case DriftList(_, _, _, live) => f.Sid() !in live
    case DriftDelete(_, _, _, _, _, live) => f.Sid() !in live
    case DriftEvict(_, _, _, _, _, live) => f.Sid() !in live
    case PassRows(live) => f.Sid() !in live
    case PassOrder(live, _) => f.Sid() !in live
    case _ => true
  }

  lemma ShyResume(k: Kont, st: Status, f: Fork)
    requires Clean(f.bm)
    requires ShyKont(k, f) || (k.AgentFork? && st.Fail?)
    ensures Shy(Resume(k, st), f)
  {
    if k.NextSession? { ShyBackfill(k.rest, k.mapped, f); }
  }

  lemma {:induction false} ShyBackfill(rest: seq<string>, mapped: set<string>, f: Fork)
    requires Clean(f.bm) && f.Sid() !in rest
    ensures Shy(Backfill(rest, mapped), f)
  {
    if rest != [] {
      ShyBackfill(rest[1..], mapped, f);
      ParseExactly(rest[0], f.bm);
    }
  }

  lemma {:induction false} ShyDrift(rows: seq<Row>, m: Key, ms: seq<Key>, tree: Tree, live: set<string>, f: Fork)
    requires f.Sid() !in live
    ensures Shy(DriftRows(rows, m, ms, tree, live), f)
  {
    if rows != [] { ShyDrift(rows[1..], m, ms, tree, live, f); }
  }

  lemma ShyScan(use: Use, todo: seq<Key>, tree: Tree, f: Fork)
    requires Clean(f.bm) && ShyUse(use, f) && !Shows(tree, f.bm)
    ensures Shy(Scan(use, todo, tree), f)
  {
    if todo == [] && use.Ensure? && use.goal.Bind? { ShyResume(use.goal.k, Fail(404), f); }
  }

  /** While the bookmark, session and row do not exist, a shy handler stays shy. */
  lemma ShyFeed(w: World, pc: Pc, e: Ev, f: Fork)
    requires FreshName(f) && !pc.End? && Proper(pc) && Shy(pc, f) && GoodWorld(w)
    requires Legal(w, Request(pc), e) && Virgin(w, f) && Virgin(After(w, Request(pc), e), f)
    ensures Shy(Feed(pc, e.resp), f)
  {
    if InEnsure(pc) { ShyEnsure(w, pc, e, f); }
    else if InPass(pc) { ShyPass(w, pc, e, f); }
    else if InWorksheet(pc) { ShyWorksheet(w, pc, e, f); }
    else { ShyHandler(w, pc, e, f); }
  }

  lemma ShyEnsure(w: World, pc: Pc, e: Ev, f: Fork)
    requires FreshName(f) && InEnsure(pc) && Proper(pc) && Shy(pc, f)
    requires Legal(w, Request(pc), e) && Virgin(w, f) && Virgin(After(w, Request(pc), e), f)
    ensures Shy(Feed(pc, e.resp), f)
  {
    var a := e.resp;
    if pc.TreeList? {
      if a.Repos? { ShyScan(pc.use, a.keys, map[], f); }
      else if pc.use.Ensure? && pc.use.goal.Bind? { ShyResume(pc.use.goal.k, Fail(502), f); }
    } else if pc.TreeScan? {
      ShyScan(pc.use, pc.todo, pc.tree[pc.at := if a.Bms? then a.bms else {}], f);
    } else if pc.BmCreate? {
      if pc.goal.Bind? { ShyResume(pc.goal.k, Fail(502), f); }
    } else {
      ShyResume(pc.k, Ok, f);
      ShyResume(pc.k, Fail(502), f);
    }
  }

  lemma ShyPass(w: World, pc: Pc, e: Ev, f: Fork)
    requires FreshName(f) && InPass(pc) && Shy(pc, f) && Legal(w, Request(pc), e) && Virgin(w, f)
    ensures Shy(Feed(pc, e.resp), f)
  {
    if pc.DriftList? || pc.DriftDelete? || pc.DriftEvict? { ShyDriftPass(pc, e.resp, f); }
    else if pc.PassOrder? && e.resp.Order? { ShyBackfill(e.resp.names, pc.mapped, f); }
  }

  lemma ShyDriftPass(pc: Pc, a: Resp, f: Fork)
    requires (pc.DriftList? || pc.DriftDelete? || pc.DriftEvict?) && Shy(pc, f)
    ensures Shy(Feed(pc, a), f)
  {
    if pc.DriftEvict? { ShyDrift(pc.rows, pc.m, pc.ms, pc.tree, pc.live, f); }
    else if pc.DriftList? && a.Rows? { ShyDrift(a.rows, pc.m, pc.ms, pc.tree, pc.live, f); }
  }

  lemma ShyWorksheet(w: World, pc: Pc, e: Ev, f: Fork)
    requires FreshName(f) && InWorksheet(pc) && Proper(pc) && Shy(pc, f) && GoodWorld(w)
    requires Legal(w, Request(pc), e) && Virgin(w, f)
    ensures Shy(Feed(pc, e.resp), f)
  {
    hide Exec;
    if pc.WsStart? { ShyExec(pc.job, f); }
    else if pc.ForkAtLookup? { ShyForkAtLookup(w, pc, e, f); }
    else { ShyOtherWorksheet(pc, e, f); }
  }

  lemma ShyForkAtLookup(w: World, pc: Pc, e: Ev, f: Fork)
    requires FreshName(f) && pc.ForkAtLookup? && Shy(pc, f) && GoodWorld(w)
    requires Legal(w, Request(pc), e) && Virgin(w, f)
    ensures Shy(Feed(pc, e.resp), f)
  {
    ShyLookup(w, f);
  }

  lemma ShyOtherWorksheet(pc: Pc, e: Ev, f: Fork)
    requires InWorksheet(pc) && !pc.WsStart? && !pc.ForkAtLookup? && Shy(pc, f)
    ensures Shy(Feed(pc, e.resp), f)
  {
    hide Exec;
  }

  lemma ShyExec(job: Job, f: Fork)
    requires ShyJob(job, f)
    ensures Shy(Exec(job), f)
  {
  }

  /** No row carries the new session's name before the bookmark has a row. */
  lemma ShyLookup(w: World, f: Fork)
    requires Clean(f.bm) && RowsNamed(w) && f.bm !in w.rows
    ensures f.Sid() !in w.rows.Values
  {
    ConflictMeansBound(w, f.bm, f.bm);
  }

  lemma ShyHandler(w: World, pc: Pc, e: Ev, f: Fork)
    requires FreshName(f) && InHandler(pc) && Proper(pc) && Shy(pc, f)
    requires Legal(w, Request(pc), e) && Virgin(w, f)
    ensures Shy(Feed(pc, e.resp), f)
  {
    if pc.ForkedLookup? { ParseExactly(pc.parentSid, f.bm); }
  }

  /** A call of a shy handler brings none of the three into existence, or puts the bookmark at the base. */
  lemma ShyWrite(w: World, pc: Pc, e: Ev, f: Fork)
    requires FreshName(f) && !pc.End? && Shy(pc, f) && Proper(pc) && Virgin(w, f)
    ensures var w' := After(w, Request(pc), e); Virgin(w', f) || Pinned(w', f)
  {
    ShyRequest(pc, f);
  }

  predicate ShyReq(q: Req, f: Fork) {
    match q
    case EnsureSession(sid) => sid != f.Sid()
    case ForkSession(_, sid) => sid != f.Sid()
    case CreateBookmark(t, rev) => t == f.bm ==> rev == At(f.base)
    case InsertRow(t, _) => t != f.bm
    case RenameRow(_, to, _) => to != f.bm
    case _ => true
  }

  lemma ShyRequest(pc: Pc, f: Fork)
    requires Clean(f.bm) && !pc.End? && Shy(pc, f) && Proper(pc)
    ensures ShyReq(Request(pc), f)
  {
    if pc.AdoptSession? && Naming(pc.t) == f.Sid() { NamingInjective(pc.t, f.bm); }
  }

  /** What holds in every state: nothing of the fork exists and every handler is shy, or the bookmark is pinned. */
  ghost predicate PinSafe(s: Sys, f: Fork) {
    && Good(s) && AllSpare(s, f.bm)
    && (Pinned(s.w, f) || (Virgin(s.w, f) && forall i :: i in s.procs ==> Shy(s.procs[i], f)))
  }

  /** What the surroundings may do: nobody deletes the bookmark or commits to it, no other fork asks for
      the same name, and no event mentions the new session before it exists. */
  ghost predicate LeavesAlone(s: Sys, act: Act, f: Fork) {
    match act
    case Spawn(_, pc) => Spares(pc, f.bm) && (Virgin(s.w, f) ==> Shy(pc, f))
    case Env(sessions, repos, now) =>
      var w' := s.w.(sessions := sessions, repos := repos, now := now);
      if Virgin(s.w, f) then Virgin(w', f) else Pinned(w', f)
    case _ => true
  }

  lemma PinCall(s: Sys, i: nat, e: Ev, s': Sys, f: Fork)
    requires FreshName(f) && PinSafe(s, f) && Next(s, Call(i, e), s')
    ensures PinSafe(s', f)
  {
    var pc := s.procs[i];
    GoodNext(s, Call(i, e), s');
    SparesFeed(pc, e.resp, f.bm);
    if Pinned(s.w, f) {
      CallKeeps(s.w, Request(pc), e, f.bm, f.base);
    } else {
      ShyWrite(s.w, pc, e, f);
      if Virgin(s'.w, f) { ShyFeed(s.w, pc, e, f); }
    }
  }

  lemma PinNext(s: Sys, act: Act, s': Sys, f: Fork)
    requires FreshName(f) && PinSafe(s, f) && Next(s, act, s') && LeavesAlone(s, act, f)
    ensures PinSafe(s', f)
  {
    GoodNext(s, act, s');
    if act.Call? { PinCall(s, act.i, act.e, s', f); }
  }

  /** Every interleaving leaves the new bookmark at its base revision, from the moment anything of the
      fork exists; in particular whenever the new session does. */
  lemma {:induction false} ForkIsPinned(b: seq<Sys>, acts: seq<Act>, n: nat, f: Fork)
    requires FreshName(f) && Behavior(b, acts) && n < |b| && PinSafe(b[0], f)
    requires forall k :: 0 <= k < |acts| ==> LeavesAlone(b[k], acts[k], f)
    ensures PinSafe(b[n], f)
    ensures f.Sid() in b[n].w.sessions || f.bm in b[n].w.rows || HasBookmark(b[n].w, f.bm) ==> Pinned(b[n].w, f)
  {
    if n > 0 {
      ForkIsPinned(b, acts, n - 1, f);
      assert Next(b[n - 1], acts[n - 1], b[n - 1 + 1]);
      PinNext(b[n - 1], acts[n - 1], b[n], f);
    }
  }

  /** The fork's own worksheet is one of the handlers the theorem allows. */
  lemma ForkWorksheetIsShy(id: string, job: Job, f: Fork)
    requires Clean(f.bm) && job.ForkJob? && f.base != "" && job.baseRev == f.base
    requires Parse(job.session).Some? && Triple(Parse(job.session).value.key, job.bookmark) == f.bm
    ensures var pc := OnDecision(id, true, job); Shy(pc, f) && Spares(pc, f.bm)
  {
  }

  /** And so are the pass, the forked and created events of other sessions, and, once the bookmark is
      there, the forked event of the fork itself. */
  lemma EventsLeaveAlone(s: Sys, i: nat, e: Event, f: Fork)
    requires Clean(f.bm)
    requires e.Created? || e.Forked?
    requires Virgin(s.w, f) ==> e.sid != f.Sid() && (e.Forked? ==> e.parent != f.Sid())
    ensures LeavesAlone(s, Spawn(i, OnEvent(e)), f) && LeavesAlone(s, Spawn(i, PassSessions), f)
  {
    ParseExactly(e.sid, f.bm);
  }
}
