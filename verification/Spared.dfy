/** Work is preserved: over every run, a bookmark that no handler is asked to delete or rename away
    keeps its commit. Reconcile passes ask for no such thing, and leave the sessions alone. */
module Spared {
  import opened Names
  import opened Stores
  import opened Handlers
  import opened Interleaving

  predicate SparesGoal(goal: Goal, bm: Triple) {
    goal.Move? ==> goal.from != bm
  }

  predicate SparesUse(use: Use, bm: Triple) {
    match use
    case Ensure(_, _, goal) => SparesGoal(goal, bm)
    case Drop(t, _) => t != bm
    case _ => true
  }

  predicate SparesWithdrawal(t: Triple, target: string, bm: Triple) {
    t != bm && Parse(target) != Some(bm)
  }

  predicate SparesJob(job: Job, bm: Triple) {
    var pc := Exec(job);
    pc.WithdrawSession? ==> SparesWithdrawal(pc.t, pc.target, bm)
  }

  /** The handler is not on its way to dropping bookmark bm. */
  predicate Spares(pc: Pc, bm: Triple) {
    match pc
    case TreeList(use) => SparesUse(use, bm)
    case TreeScan(use, _, _, _) => SparesUse(use, bm)
    case BmCreate(_, _, goal) => SparesGoal(goal, bm)
    case RenameGet(from, _) => from != bm
    case RenameMove(from, _) => from != bm
    case RenameEvict(from) => from != bm
    case DropCall(t, _) => t != bm
    case DeletedLookup(t, _) => t != bm
    case WsClaim(_, job) => SparesJob(job, bm)
    case WsStart(_, job) => SparesJob(job, bm)
    case WithdrawSession(t, target) => SparesWithdrawal(t, target, bm)
    case WithdrawLookup(t, target) => SparesWithdrawal(t, target, bm)
    case _ => true
  }

  lemma SparesFeed(pc: Pc, a: Resp, bm: Triple)
    requires !pc.End? && Spares(pc, bm)
    ensures Spares(Feed(pc, a), bm)
  {
    if InEnsure(pc) { SparesEnsure(pc, a, bm); }
    else if InPass(pc) { SparesPass(pc, a, bm); }
    else if InWorksheet(pc) { SparesWorksheet(pc, a, bm); }
    else { SparesHandler(pc, a, bm); }
  }

  lemma SparesEnsure(pc: Pc, a: Resp, bm: Triple)
    requires InEnsure(pc) && Spares(pc, bm)
    ensures Spares(Feed(pc, a), bm)
  {
    forall k, st ensures Spares(Resume(k, st), bm) { SparesResume(k, st, bm); }
  }

  lemma SparesResume(k: Kont, st: Status, bm: Triple)
    ensures Spares(Resume(k, st), bm)
  {
    if k.NextSession? { SparesBackfill(k.rest, k.mapped, bm); }
  }

  lemma {:induction false} SparesBackfill(rest: seq<string>, mapped: set<string>, bm: Triple)
    ensures Spares(Backfill(rest, mapped), bm)
  {
    if rest != [] { SparesBackfill(rest[1..], mapped, bm); }
  }

  lemma {:induction false} SparesDrift(rows: seq<Row>, m: Key, ms: seq<Key>, tree: Tree, live: set<string>, bm: Triple)
    ensures Spares(DriftRows(rows, m, ms, tree, live), bm)
  {
    if rows != [] { SparesDrift(rows[1..], m, ms, tree, live, bm); }
  }

  lemma SparesPass(pc: Pc, a: Resp, bm: Triple)
    requires InPass(pc)
    ensures Spares(Feed(pc, a), bm)
  {
    if pc.DriftEvict? { SparesDrift(pc.rows, pc.m, pc.ms, pc.tree, pc.live, bm); }
    else if pc.DriftList? && a.Rows? { SparesDrift(a.rows, pc.m, pc.ms, pc.tree, pc.live, bm); }
    else if pc.PassOrder? && a.Order? { SparesBackfill(a.names, pc.mapped, bm); }
  }

  lemma SparesWorksheet(pc: Pc, a: Resp, bm: Triple)
    requires InWorksheet(pc) && Spares(pc, bm)
    ensures Spares(Feed(pc, a), bm)
  {
    if pc.WithdrawLookup? { ParseAny(pc.target); }
  }

  lemma ParseAny(name: string)
    ensures Parse(name).Some? ==> name == Naming(Parse(name).value)
  {
    if Parse(name).Some? { ParseExactly(name, Parse(name).value); }
  }

  lemma SparesHandler(pc: Pc, a: Resp, bm: Triple)
    requires InHandler(pc) && Spares(pc, bm)
    ensures Spares(Feed(pc, a), bm)
  {
  }

  predicate Stands(w: World, bm: Triple, c: Commit) {
    HasBookmark(w, bm) && Position(w, bm) == c
  }

  /** A call that does not drop the bookmark leaves it where it is: no creation ever moves one. */
  lemma CallKeeps(w: World, q: Req, e: Ev, bm: Triple, c: Commit)
    requires Stands(w, bm, c) && q != DropBookmark(bm)
    ensures Stands(After(w, q, e), bm, c)
  {
  }

  ghost predicate AllSpare(s: Sys, bm: Triple) {
    forall i :: i in s.procs ==> Spares(s.procs[i], bm)
  }

  /** No handler is asked to drop bm, and neither jjlab nor anyone committing moves it. */
  ghost predicate Protects(acts: seq<Act>, bm: Triple, c: Commit) {
    forall k :: 0 <= k < |acts| ==>
      && (acts[k].Spawn? ==> Spares(acts[k].pc, bm))
      && (acts[k].Env? ==> bm.key in acts[k].repos && bm.bm in acts[k].repos[bm.key].bms
                           && acts[k].repos[bm.key].bms[bm.bm] == c)
  }

  lemma {:induction false} BookmarkKeepsItsCommit(b: seq<Sys>, acts: seq<Act>, n: nat, bm: Triple, c: Commit)
    requires Behavior(b, acts) && n < |b|
    requires Stands(b[0].w, bm, c) && AllSpare(b[0], bm) && Protects(acts, bm, c)
    ensures Stands(b[n].w, bm, c) && AllSpare(b[n], bm)
  {
    if n > 0 {
      BookmarkKeepsItsCommit(b, acts, n - 1, bm, c);
      var s, act := b[n - 1], acts[n - 1];
      assert Next(s, act, b[n - 1 + 1]);
      if act.Call? {
        CallKeeps(s.w, Request(s.procs[act.i]), act.e, bm, c);
        SparesFeed(s.procs[act.i], act.e.resp, bm);
      }
    }
  }

  // ---- reconcile passes ----

  predicate HealsGoal(goal: Goal) {
    goal.Bind? && goal.k.NextSession?
  }

  predicate HealsUse(use: Use) {
    use.Drift? || (use.Ensure? && HealsGoal(use.goal))
  }

  /** A program counter of a reconcile pass. */
  predicate Heals(pc: Pc) {
    match pc
    case TreeList(use) => HealsUse(use)
    case TreeScan(use, _, _, _) => HealsUse(use)
    case CreatedLookup(_, _, k) => k.NextSession?
    case CreatedRepo(_, _, k) => k.NextSession?
    case CreatedProbe(_, _, k) => k.NextSession?
    case BmCreate(_, _, goal) => HealsGoal(goal)
    case BindInsert(_, _, k) => k.NextSession?
    case BindManage(_, k) => k.NextSession?
    case _ => InPass(pc) || pc.End?
  }

  lemma HealsFeed(pc: Pc, a: Resp)
    requires !pc.End? && Heals(pc)
    ensures Heals(Feed(pc, a))
  {
    if InEnsure(pc) { HealsEnsure(pc, a); } else { HealsPass(pc, a); }
  }

  lemma HealsEnsure(pc: Pc, a: Resp)
    requires InEnsure(pc) && Heals(pc)
    ensures Heals(Feed(pc, a))
  {
    forall k: Kont, st | k.NextSession? ensures Heals(Resume(k, st)) { HealsBackfill(k.rest, k.mapped); }
  }

  lemma {:induction false} HealsBackfill(rest: seq<string>, mapped: set<string>)
    ensures Heals(Backfill(rest, mapped))
  {
    if rest != [] { HealsBackfill(rest[1..], mapped); }
  }

  lemma {:induction false} HealsDrift(rows: seq<Row>, m: Key, ms: seq<Key>, tree: Tree, live: set<string>)
    ensures Heals(DriftRows(rows, m, ms, tree, live))
  {
    if rows != [] { HealsDrift(rows[1..], m, ms, tree, live); }
  }

  lemma HealsPass(pc: Pc, a: Resp)
    requires InPass(pc)
    ensures Heals(Feed(pc, a))
  {
    if pc.DriftEvict? { HealsDrift(pc.rows, pc.m, pc.ms, pc.tree, pc.live); }
    else if pc.DriftList? && a.Rows? { HealsDrift(a.rows, pc.m, pc.ms, pc.tree, pc.live); }
    else if pc.PassOrder? && a.Order? { HealsBackfill(a.names, pc.mapped); }
  }

  lemma SessionsUntouched(w: World, q: Req, e: Ev)
    requires !q.EnsureSession? && !q.ForkSession? && !q.DeleteSession?
    ensures After(w, q, e).sessions == w.sessions
  {
  }

  /** Passes, their calls, crashes and time; nothing else. */
  ghost predicate PassesOnly(b: seq<Sys>, acts: seq<Act>) {
    Behavior(b, acts) && b[0].procs == map[] &&
    forall k :: 0 <= k < |acts| ==>
      && (acts[k].Spawn? ==> acts[k].pc == PassSessions)
      && (acts[k].Env? ==> acts[k].sessions == b[k].w.sessions && acts[k].repos == b[k].w.repos)
  }

  lemma HealingCall(w: World, pc: Pc, e: Ev, bm: Triple)
    requires Heals(pc) && !pc.End?
    ensures After(w, Request(pc), e).sessions == w.sessions
    ensures HasBookmark(w, bm) ==> Stands(After(w, Request(pc), e), bm, Position(w, bm))
  {
    SessionsUntouched(w, Request(pc), e);
    if HasBookmark(w, bm) { CallKeeps(w, Request(pc), e, bm, Position(w, bm)); }
  }

  /** Over any run of passes, with any calls failing: sessions are untouched and work stays where it was. */
  lemma {:induction false} PassesPreserveWork(b: seq<Sys>, acts: seq<Act>, n: nat, bm: Triple)
    requires PassesOnly(b, acts) && n < |b|
    ensures b[n].w.sessions == b[0].w.sessions
    ensures HasBookmark(b[0].w, bm) ==> Stands(b[n].w, bm, Position(b[0].w, bm))
    ensures forall i :: i in b[n].procs ==> Heals(b[n].procs[i])
  {
    if n > 0 {
      PassesPreserveWork(b, acts, n - 1, bm);
      var s, act := b[n - 1], acts[n - 1];
      assert Next(s, act, b[n - 1 + 1]);
      if act.Call? {
        HealingCall(s.w, s.procs[act.i], act.e, bm);
        HealsFeed(s.procs[act.i], act.e.resp);
      }
    }
  }
}
