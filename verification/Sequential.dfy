/** Handlers one at a time, with any calls failing and crashes anywhere: a row has lost its bookmark exactly if a
    handler dropped the bookmark while it was mapped, and nothing has mended it since; and apart from renames of
    a session to itself and delete worksheets that name another session, that handler was a delete cut before it
    removed the row (events_sub.go, worksheets.go). */
module Sequential {
  import opened Names
  import opened Stores
  import opened Handlers
  import opened Interleaving
  import opened NamingInvariant

  /** At most one handler is running. */
  ghost predicate OneLive(s: Sys) {
    forall i, j :: i in s.procs && j in s.procs && !s.procs[i].End? && !s.procs[j].End? ==> i == j
  }

  /** Handlers one at a time, and no bookmark removed but by them. */
  ghost predicate OneAtATime(b: seq<Sys>, acts: seq<Act>) {
    && Behavior(b, acts)
    && (forall k :: 0 <= k < |b| ==> OneLive(b[k]))
    && (forall k :: 0 <= k < |acts| && acts[k].Env? ==> KeepsBookmarks(b[k].w, b[k + 1].w))
  }

  /** jjlab and committers may move bookmarks but not remove them. */
  ghost predicate KeepsBookmarks(w: World, w': World) {
    forall t :: HasBookmark(w, t) ==> HasBookmark(w', t)
  }

  // ---- rows are written where the bookmark is ----

  predicate TreeSound(w: World, tree: Tree) {
    forall k :: k in tree ==> forall b :: b in tree[k] ==> HasBookmark(w, Triple(k, b))
  }

  /** What the calls made so far have established for the row to be written. */
  predicate Ready(w: World, pc: Pc) {
    match pc
    case TreeScan(_, _, _, tree) => TreeSound(w, tree)
    case BindInsert(t, _, _) => HasBookmark(w, t)
    case RenameMove(_, to) => HasBookmark(w, to)
    case AdoptSession(t) => HasBookmark(w, t)
    case AdoptInsert(t) => HasBookmark(w, t)
    case _ => true
  }

  lemma ReadyResume(w: World, k: Kont, st: Status)
    ensures Ready(w, Resume(k, st))
  {
    if k.NextSession? { ReadyBackfill(w, k.rest, k.mapped); }
  }

  lemma {:induction false} ReadyBackfill(w: World, rest: seq<string>, mapped: set<string>)
    ensures Ready(w, Backfill(rest, mapped))
  {
    if rest != [] { ReadyBackfill(w, rest[1..], mapped); }
  }

  lemma {:induction false} ReadyDrift(w: World, rows: seq<Row>, m: Key, ms: seq<Key>, tree: Tree, live: set<string>)
    ensures Ready(w, DriftRows(rows, m, ms, tree, live))
  {
    if rows != [] { ReadyDrift(w, rows[1..], m, ms, tree, live); }
  }

  lemma ReadyScan(w: World, use: Use, todo: seq<Key>, tree: Tree)
    requires TreeSound(w, tree)
    ensures Ready(w, Scan(use, todo, tree))
  {
    if todo == [] && use.Ensure? && use.goal.Bind? { ReadyResume(w, use.goal.k, Fail(404)); }
  }

  lemma ReadyFeed(w: World, pc: Pc, e: Ev)
    requires !pc.End? && Ready(w, pc) && Legal(w, Request(pc), e)
    ensures Ready(After(w, Request(pc), e), Feed(pc, e.resp))
  {
    if InEnsure(pc) { ReadyEnsure(w, pc, e); }
    else if InPass(pc) { ReadyPass(w, pc, e); }
    else if InWorksheet(pc) { ReadyWorksheet(w, pc, e); }
    else { ReadyHandler(w, pc, e); }
  }

  lemma ReadyEnsure(w: World, pc: Pc, e: Ev)
    requires InEnsure(pc) && Ready(w, pc) && Legal(w, Request(pc), e)
    ensures Ready(After(w, Request(pc), e), Feed(pc, e.resp))
  {
    var a, w' := e.resp, After(w, Request(pc), e);
    if pc.TreeList? {
      if a.Repos? { ReadyScan(w', pc.use, a.keys, map[]); }
      else if pc.use.Ensure? && pc.use.goal.Bind? { ReadyResume(w', pc.use.goal.k, Fail(502)); }
    } else if pc.TreeScan? {
      ReadyScan(w', pc.use, pc.todo, pc.tree[pc.at := if a.Bms? then a.bms else {}]);
    } else if pc.BmCreate? {
      if pc.goal.Bind? { ReadyResume(w', pc.goal.k, Fail(502)); }
    } else {
      ReadyResume(w', pc.k, Ok);
      ReadyResume(w', pc.k, Fail(502));
    }
  }

  lemma ReadyPass(w: World, pc: Pc, e: Ev)
    requires InPass(pc)
    ensures Ready(After(w, Request(pc), e), Feed(pc, e.resp))
  {
    hide Effect;
    var a, w' := e.resp, After(w, Request(pc), e);
    if pc.DriftList? || pc.DriftDelete? || pc.DriftEvict? { ReadyDriftPass(w', pc, a); }
    else if pc.PassOrder? && a.Order? { ReadyBackfill(w', a.names, pc.mapped); }
  }

  lemma ReadyDriftPass(w': World, pc: Pc, a: Resp)
    requires pc.DriftList? || pc.DriftDelete? || pc.DriftEvict?
    ensures Ready(w', Feed(pc, a))
  {
    if pc.DriftEvict? { ReadyDrift(w', pc.rows, pc.m, pc.ms, pc.tree, pc.live); }
    else if pc.DriftList? && a.Rows? { ReadyDrift(w', a.rows, pc.m, pc.ms, pc.tree, pc.live); }
  }

  lemma ReadyWorksheet(w: World, pc: Pc, e: Ev)
    requires InWorksheet(pc)
    ensures Ready(After(w, Request(pc), e), Feed(pc, e.resp))
  {
    hide Naming, Parse;
  }

  lemma ReadyHandler(w: World, pc: Pc, e: Ev)
    requires InHandler(pc) && Ready(w, pc) && Legal(w, Request(pc), e)
    ensures Ready(After(w, Request(pc), e), Feed(pc, e.resp))
  {
    hide Naming, Parse;
  }

  ghost predicate AllReady(s: Sys) {
    forall i :: i in s.procs ==> Ready(s.w, s.procs[i])
  }

  lemma ReadyStart(w: World, pc: Pc)
    requires Starts(pc)
    ensures Ready(w, pc)
  {
    hide Exec, HasBookmark, Naming, Parse;
  }

  lemma ReadyNext(s: Sys, act: Act, s': Sys)
    requires OneLive(s) && AllReady(s) && Next(s, act, s') && (act.Env? ==> KeepsBookmarks(s.w, s'.w))
    ensures AllReady(s')
  {
    forall i | i in s'.procs ensures Ready(s'.w, s'.procs[i]) {
      if act.Spawn? && act.i == i {
        ReadyStart(s'.w, act.pc);
      } else if act.Call? && act.i == i {
        ReadyFeed(s.w, s.procs[i], act.e);
      } else if act.Call? {
        assert !s.procs[act.i].End?;
      }
    }
  }

  lemma {:induction false} ReadyHolds(b: seq<Sys>, acts: seq<Act>, n: nat)
    requires OneAtATime(b, acts) && AllReady(b[0]) && n < |b|
    ensures AllReady(b[n])
  {
    if n > 0 {
      ReadyHolds(b, acts, n - 1);
      assert Next(b[n - 1], acts[n - 1], b[n - 1 + 1]);
      ReadyNext(b[n - 1], acts[n - 1], b[n]);
    }
  }

  // ---- where a row loses its bookmark, and where it is mended ----

  /** A handler's call drops the bookmark of a row. */
  predicate DropsMapped(s: Sys, act: Act, t: Triple) {
    && act.Call? && act.i in s.procs && !s.procs[act.i].End? && act.e.took
    && Request(s.procs[act.i]) == DropBookmark(t) && HasBookmark(s.w, t) && t in s.w.rows
  }

  /** The call removes or moves the row, or brings the bookmark back. */
  predicate MendsRow(w: World, q: Req, t: Triple) {
    || q == DeleteRow(t)
    || (q.RenameRow? && q.from == t && q.to != t && !Taken(w.rows - {t}, q.to, q.sid))
    || (q.CreateBookmark? && q.t == t && CanCreate(w, t, q.rev))
    || (q == PostRepo(t.key) && t.key !in w.repos && t.bm == MAIN)
  }

  /** The row goes, or the bookmark comes back, by a handler's call or by jjlab's own doing. */
  predicate Mends(s: Sys, act: Act, t: Triple) {
    match act
    case Call(i, e) => i in s.procs && !s.procs[i].End? && e.took && MendsRow(s.w, Request(s.procs[i]), t)
    case Env(_, repos, _) => Holds(repos, t)
    case _ => false
  }

  /** The bookmark was dropped while it was mapped, and nothing has mended that since. */
  ghost predicate DroppedBefore(b: seq<Sys>, acts: seq<Act>, n: nat, t: Triple) {
    exists k: nat :: DroppedAt(b, acts, k, n, t)
  }

  ghost predicate DroppedAt(b: seq<Sys>, acts: seq<Act>, k: nat, n: nat, t: Triple) {
    k < n <= |acts| < |b| && DropsMapped(b[k], acts[k], t) && forall j :: k < j < n ==> !Mends(b[j], acts[j], t)
  }

  /** What one call does to one row and its bookmark, if rows are written only where the bookmark is. */
  lemma DanglingCall(w: World, q: Req, e: Ev, t: Triple)
    requires q.InsertRow? ==> HasBookmark(w, q.t)
    requires q.RenameRow? ==> HasBookmark(w, q.to)
    ensures Dangling(After(w, q, e), t) <==>
            (e.took && q == DropBookmark(t) && HasBookmark(w, t) && t in w.rows)
            || (Dangling(w, t) && !(e.took && MendsRow(w, q, t)))
  {
  }

  lemma WhoWrites(w: World, pc: Pc)
    requires !pc.End? && Ready(w, pc)
    ensures var q := Request(pc); (q.InsertRow? ==> HasBookmark(w, q.t)) && (q.RenameRow? ==> HasBookmark(w, q.to))
  {
    hide Exec, HasBookmark, Naming, Parse;
  }

  lemma DanglingNext(s: Sys, act: Act, s': Sys, t: Triple)
    requires AllReady(s) && Next(s, act, s') && (act.Env? ==> KeepsBookmarks(s.w, s'.w))
    ensures Dangling(s'.w, t) <==> DropsMapped(s, act, t) || (Dangling(s.w, t) && !Mends(s, act, t))
  {
    if act.Call? {
      WhoWrites(s.w, s.procs[act.i]);
      DanglingCall(s.w, Request(s.procs[act.i]), act.e, t);
    }
  }

  /** A row has lost its bookmark if and only if some handler dropped it while it was mapped, and since then no
      call has taken the row away and nothing has brought the bookmark back. */
  lemma {:induction false} RowDanglesIffDropped(b: seq<Sys>, acts: seq<Act>, n: nat, t: Triple)
    requires OneAtATime(b, acts) && AllReady(b[0]) && n < |b| && !Dangling(b[0].w, t)
    ensures Dangling(b[n].w, t) <==> DroppedBefore(b, acts, n, t)
  {
    hide Next, Dangling, DropsMapped, Mends;
    if n > 0 {
      RowDanglesIffDropped(b, acts, n - 1, t);
      ReadyHolds(b, acts, n - 1);
      assert Next(b[n - 1], acts[n - 1], b[n - 1 + 1]);
      DanglingNext(b[n - 1], acts[n - 1], b[n], t);
      DroppedNext(b, acts, n - 1, t);
    }
  }

  lemma DroppedNext(b: seq<Sys>, acts: seq<Act>, n: nat, t: Triple)
    requires n < |acts| < |b|
    ensures DroppedBefore(b, acts, n + 1, t) <==>
            DropsMapped(b[n], acts[n], t) || (DroppedBefore(b, acts, n, t) && !Mends(b[n], acts[n], t))
  {
    hide DropsMapped, Mends;
    var m := n + 1;
    if k: nat :| DroppedAt(b, acts, k, m, t) {
      if k < n { assert DroppedAt(b, acts, k, n, t); }
    }
    if DropsMapped(b[n], acts[n], t) {
      assert DroppedAt(b, acts, n, n + 1, t);
    } else if k: nat :| DroppedAt(b, acts, k, n, t) {
      if !Mends(b[n], acts[n], t) { assert DroppedAt(b, acts, k, n + 1, t); }
    }
  }

  // ---- without self-renames and misdirected worksheets ----

  /** The worksheet, if it deletes, names the derived session of the bookmark it deletes. */
  predicate OwnSession(job: Job) {
    var pc := Exec(job);
    pc.WithdrawSession? ==> pc.target == Naming(pc.t)
  }

  /** No rename of a session to its own name, and no delete worksheet naming another session. */
  predicate Sensible(pc: Pc) {
    match pc
    case RenameGet(from, to) => from != to
    case WsClaim(_, job) => OwnSession(job)
    case _ => true
  }

  predicate CarefulGoal(t: Triple, goal: Goal) {
    goal.Move? ==> goal.from != t
  }

  predicate CarefulUse(w: World, use: Use) {
    match use
    case Ensure(t, _, goal) => CarefulGoal(t, goal)
    case Drop(t, after) => after.Finish? ==> t !in w.rows
    case _ => true
  }

  /** A bookmark is dropped only on the way to its row, or where there is none. */
  predicate Careful(w: World, pc: Pc) {
    match pc
    case TreeList(use) => CarefulUse(w, use)
    case TreeScan(use, _, _, _) => CarefulUse(w, use)
    case BmCreate(t, _, goal) => CarefulGoal(t, goal)
    case RenameGet(from, to) => from != to
    case RenameMove(from, to) => from != to
    case RenameEvict(from) => from !in w.rows
    case DropCall(t, after) => after.Finish? ==> t !in w.rows
    case WsClaim(_, job) => OwnSession(job)
    case WsStart(_, job) => OwnSession(job)
    case WithdrawSession(t, target) => target == Naming(t)
    case WithdrawLookup(t, target) => target == Naming(t)
    case _ => true
  }

  lemma CarefulResume(w: World, k: Kont, st: Status)
    ensures Careful(w, Resume(k, st))
  {
    if k.NextSession? { CarefulBackfill(w, k.rest, k.mapped); }
  }

  lemma {:induction false} CarefulBackfill(w: World, rest: seq<string>, mapped: set<string>)
    ensures Careful(w, Backfill(rest, mapped))
  {
    if rest != [] { CarefulBackfill(w, rest[1..], mapped); }
  }

  lemma {:induction false} CarefulDrift(w: World, rows: seq<Row>, m: Key, ms: seq<Key>, tree: Tree, live: set<string>)
    ensures Careful(w, DriftRows(rows, m, ms, tree, live))
  {
    if rows != [] { CarefulDrift(w, rows[1..], m, ms, tree, live); }
  }

  lemma CarefulFeed(w: World, pc: Pc, e: Ev)
    requires GoodWorld(w) && !pc.End? && Careful(w, pc) && Legal(w, Request(pc), e)
    ensures Careful(After(w, Request(pc), e), Feed(pc, e.resp))
  {
    if pc.TreeList? || pc.TreeScan? { CarefulTree(w, pc, e); }
    else if InEnsure(pc) { CarefulEnsure(w, pc, e); }
    else if InPass(pc) { CarefulPass(w, pc, e); }
    else if InWorksheet(pc) { CarefulWorksheet(w, pc, e); }
    else { CarefulHandler(w, pc, e); }
  }

  lemma CarefulTree(w: World, pc: Pc, e: Ev)
    requires (pc.TreeList? || pc.TreeScan?) && Careful(w, pc)
    ensures Careful(After(w, Request(pc), e), Feed(pc, e.resp))
  {
    if pc.use.Ensure? && pc.use.goal.Bind? {
      CarefulResume(w, pc.use.goal.k, Fail(404));
      CarefulResume(w, pc.use.goal.k, Fail(502));
    }
  }

  lemma CarefulEnsure(w: World, pc: Pc, e: Ev)
    requires InEnsure(pc) && !pc.TreeList? && !pc.TreeScan? && Careful(w, pc)
    ensures Careful(After(w, Request(pc), e), Feed(pc, e.resp))
  {
    var w' := After(w, Request(pc), e);
    if pc.BmCreate? {
      if pc.goal.Bind? { CarefulResume(w', pc.goal.k, Fail(502)); }
    } else {
      CarefulResume(w', pc.k, Ok);
      CarefulResume(w', pc.k, Fail(502));
    }
  }

  lemma CarefulPass(w: World, pc: Pc, e: Ev)
    requires InPass(pc)
    ensures Careful(After(w, Request(pc), e), Feed(pc, e.resp))
  {
    hide Effect;
    var a, w' := e.resp, After(w, Request(pc), e);
    if pc.DriftList? || pc.DriftDelete? || pc.DriftEvict? { CarefulDriftPass(w', pc, a); }
    else if pc.PassOrder? && a.Order? { CarefulBackfill(w', a.names, pc.mapped); }
  }

  lemma CarefulDriftPass(w': World, pc: Pc, a: Resp)
    requires pc.DriftList? || pc.DriftDelete? || pc.DriftEvict?
    ensures Careful(w', Feed(pc, a))
  {
    if pc.DriftEvict? { CarefulDrift(w', pc.rows, pc.m, pc.ms, pc.tree, pc.live); }
    else if pc.DriftList? && a.Rows? { CarefulDrift(w', a.rows, pc.m, pc.ms, pc.tree, pc.live); }
  }

  lemma CarefulWorksheet(w: World, pc: Pc, e: Ev)
    requires GoodWorld(w) && InWorksheet(pc) && Careful(w, pc) && Legal(w, Request(pc), e)
    ensures Careful(After(w, Request(pc), e), Feed(pc, e.resp))
  {
    hide Exec, OwnSession;
    if pc.WsStart? { CarefulExec(After(w, Request(pc), e), pc.job); }
    else if pc.WithdrawLookup? { CarefulWithdraw(w, pc, e); }
  }

  lemma CarefulExec(w: World, job: Job)
    requires OwnSession(job)
    ensures Careful(w, Exec(job))
  {
  }

  lemma CarefulWithdraw(w: World, pc: Pc, e: Ev)
    requires GoodWorld(w) && pc.WithdrawLookup? && Careful(w, pc) && Legal(w, Request(pc), e)
    ensures Careful(After(w, Request(pc), e), Feed(pc, e.resp))
  {
    hide Exec;
    RowNamesSession(w, pc.t);
  }

  lemma RowNamesSession(w: World, t: Triple)
    requires RowsNamed(w)
    ensures t in w.rows ==> Naming(t) in w.rows.Values
  {
  }

  lemma CarefulHandler(w: World, pc: Pc, e: Ev)
    requires InHandler(pc) && Careful(w, pc) && Legal(w, Request(pc), e)
    ensures Careful(After(w, Request(pc), e), Feed(pc, e.resp))
  {
    hide Parse;
  }

  ghost predicate AllCareful(s: Sys) {
    forall i :: i in s.procs ==> Careful(s.w, s.procs[i])
  }

  lemma CarefulStart(w: World, pc: Pc)
    requires Starts(pc) && Sensible(pc)
    ensures Careful(w, pc)
  {
    hide Exec, Naming, Parse;
  }

  lemma CarefulNext(s: Sys, act: Act, s': Sys)
    requires Good(s) && OneLive(s) && AllCareful(s) && Next(s, act, s') && (act.Spawn? ==> Sensible(act.pc))
    ensures AllCareful(s')
  {
    forall i | i in s'.procs ensures Careful(s'.w, s'.procs[i]) {
      if act.Spawn? && act.i == i {
        CarefulStart(s'.w, act.pc);
      } else if act.Call? && act.i == i {
        CarefulFeed(s.w, s.procs[i], act.e);
      } else if act.Call? {
        assert !s.procs[act.i].End?;
      }
    }
  }

  lemma {:induction false} CarefulHolds(b: seq<Sys>, acts: seq<Act>, n: nat)
    requires OneAtATime(b, acts) && Good(b[0]) && AllCareful(b[0]) && n < |b|
    requires forall k :: 0 <= k < |acts| && acts[k].Spawn? ==> Sensible(acts[k].pc)
    ensures AllCareful(b[n])
  {
    hide Careful, Good, Next;
    if n > 0 {
      CarefulHolds(b, acts, n - 1);
      NamingHolds(b, acts, n - 1);
      assert Next(b[n - 1], acts[n - 1], b[n - 1 + 1]);
      CarefulNext(b[n - 1], acts[n - 1], b[n]);
    }
  }

  /** The call is that of a delete on its way to removing the row. */
  predicate Deletes(s: Sys, act: Act, t: Triple) {
    act.Call? && act.i in s.procs && s.procs[act.i].DropCall? && s.procs[act.i].t == t && s.procs[act.i].after.Unmap?
  }

  /** Then only a delete cut between dropping the bookmark and removing the row leaves a row dangling. */
  lemma DroppedByDelete(b: seq<Sys>, acts: seq<Act>, k: nat, n: nat, t: Triple)
    requires OneAtATime(b, acts) && Good(b[0]) && AllCareful(b[0])
    requires forall j :: 0 <= j < |acts| && acts[j].Spawn? ==> Sensible(acts[j].pc)
    requires DroppedAt(b, acts, k, n, t)
    ensures Deletes(b[k], acts[k], t)
  {
    CarefulHolds(b, acts, k);
    OnlyDropCallDrops(b[k].procs[acts[k].i], t);
  }

  lemma OnlyDropCallDrops(pc: Pc, t: Triple)
    requires !pc.End? && Request(pc) == DropBookmark(t)
    ensures pc.DropCall? && pc.t == t
  {
  }

  ghost predicate DeleteCutBefore(b: seq<Sys>, acts: seq<Act>, n: nat, t: Triple) {
    exists k: nat :: DroppedAt(b, acts, k, n, t) && Deletes(b[k], acts[k], t)
  }

  /** Row implies bookmark, up to cut deletes: a row dangles if and only if a delete dropped its bookmark, and it
      has neither been removed nor mended since. */
  lemma RowDanglesIffDeleteCut(b: seq<Sys>, acts: seq<Act>, n: nat, t: Triple)
    requires OneAtATime(b, acts) && Good(b[0]) && AllReady(b[0]) && AllCareful(b[0]) && n < |b|
    requires forall j :: 0 <= j < |acts| && acts[j].Spawn? ==> Sensible(acts[j].pc)
    requires !Dangling(b[0].w, t)
    ensures Dangling(b[n].w, t) <==> DeleteCutBefore(b, acts, n, t)
  {
    RowDanglesIffDropped(b, acts, n, t);
    if k: nat :| DroppedAt(b, acts, k, n, t) { DroppedByDelete(b, acts, k, n, t); }
  }
}
