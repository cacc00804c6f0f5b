/** The naming invariant over every run: each mapping row's session is the derived name of its own
    triple, whoever wrote it, and each resolution answers for the session it was asked about. */
module NamingInvariant {
  import opened Strs
  import opened Names
  import opened Stores
  import opened Handlers
  import opened Interleaving
  import opened BigStep

  predicate Derived(sid: string, t: Triple) {
    sid == Naming(t) && Clean(t)
  }

  predicate ProperKont(k: Kont) {
    k.Inherit? ==> Derived(k.sid, k.t)
  }

  /** A worksheet may ask for a bookmark name with a ':' in it; only jjlab's listing or creation clears it. */
  predicate ProperGoal(t: Triple, goal: Goal) {
    match goal
    case Bind(sid, k) => CleanKey(t.key) && sid == Naming(t) && ProperKont(k)
    case Move(from) => Clean(t) && Clean(from)
  }

  predicate ProperUse(use: Use) {
    use.Ensure? ==> ProperGoal(use.t, use.goal)
  }

  predicate CleanTree(tree: Tree) {
    forall k :: k in tree ==> CleanKey(k) && forall b :: b in tree[k] ==> Free(b, ':')
  }

  predicate CleanKeys(keys: seq<Key>) {
    forall k :: k in keys ==> CleanKey(k)
  }

  predicate Proper(pc: Pc) {
    match pc
    case TreeList(use) => ProperUse(use)
    case TreeScan(use, at, todo, tree) => ProperUse(use) && CleanKey(at) && CleanKeys(todo) && CleanTree(tree)
    case CreatedLookup(t, sid, k) => Derived(sid, t) && ProperKont(k)
    case CreatedRepo(t, sid, k) => Derived(sid, t) && ProperKont(k)
    case CreatedProbe(t, sid, k) => Derived(sid, t) && ProperKont(k)
    case BmCreate(t, _, goal) => ProperGoal(t, goal)
    case BindInsert(t, sid, k) => Derived(sid, t) && ProperKont(k)
    case BindManage(_, k) => ProperKont(k)
    case ForkedLookup(t, sid, _) => Derived(sid, t)
    case ForkedParent(t, sid, p) => Derived(sid, t) && Clean(p)
    case RenameGet(from, to) => Clean(from) && Clean(to)
    case RenameMove(from, to) => Clean(from) && Clean(to)
    case AdoptSession(t) => Clean(t)
    case AdoptInsert(t) => Clean(t)
    case ForkAtLookup(t, sid, _, _) => CleanKey(t.key) && sid == Naming(t)
    case ForkAtRepo(t, sid, _, _) => CleanKey(t.key) && sid == Naming(t)
    case ResolvePut(sid, t) => sid == Naming(t)
    case End(Resolved(sid, t)) => sid == Naming(t)
    case _ => true
  }

  predicate CacheNamed(w: World) {
    forall sid :: sid in w.cache ==> sid == Naming(w.cache[sid].t)
  }

  predicate GoodWorld(w: World) {
    Sound(w) && CacheNamed(w)
  }

  predicate Good(s: Sys) {
    GoodWorld(s.w) && forall i :: i in s.procs ==> Proper(s.procs[i])
  }

  lemma ParsedDerived(name: string)
    ensures Parse(name).Some? ==> Derived(name, Parse(name).value)
  {
    if Parse(name).Some? { ParseExactly(name, Parse(name).value); }
  }

  lemma ProperStart(pc: Pc)
    requires Starts(pc)
    ensures Proper(pc)
  {
    if e: Event :| pc == OnEvent(e) {
      var a := if e.Renamed? then e.from else e.sid;
      var b := if e.Renamed? then e.to else e.sid;
      ParsedDerived(a);
      ParsedDerived(b);
    }
  }

  lemma ProperResume(k: Kont, st: Status)
    requires ProperKont(k)
    ensures Proper(Resume(k, st))
  {
    if k.NextSession? { ProperBackfill(k.rest, k.mapped); }
  }

  lemma {:induction false} ProperBackfill(rest: seq<string>, mapped: set<string>)
    ensures Proper(Backfill(rest, mapped))
  {
    if rest != [] {
      ProperBackfill(rest[1..], mapped);
      ParsedDerived(rest[0]);
    }
  }

  lemma {:induction false} ProperDrift(rows: seq<Row>, m: Key, ms: seq<Key>, tree: Tree, live: set<string>)
    ensures Proper(DriftRows(rows, m, ms, tree, live))
  {
    if rows != [] { ProperDrift(rows[1..], m, ms, tree, live); }
  }

  lemma ProperTree(use: Use, tree: Tree)
    requires ProperUse(use) && CleanTree(tree)
    ensures Proper(UseTree(use, tree))
  {
    if use.Ensure? && use.goal.Bind? { ProperResume(use.goal.k, Fail(404)); }
  }

  /** One call: it keeps the stores named, and the handler that made it stays on its rails. */
  lemma ProperStep(w: World, pc: Pc, e: Ev)
    requires GoodWorld(w) && Proper(pc) && !pc.End? && Legal(w, Request(pc), e)
    ensures Proper(Feed(pc, e.resp))
    ensures GoodWorld(After(w, Request(pc), e))
  {
    ProperFeed(w, pc, e);
    assert NamedWrite(Request(pc));
    ProperWrite(w, Request(pc), e);
  }

  lemma ProperFeed(w: World, pc: Pc, e: Ev)
    requires GoodWorld(w) && Proper(pc) && !pc.End? && Legal(w, Request(pc), e)
    ensures Proper(Feed(pc, e.resp))
  {
    if InEnsure(pc) { ProperFeedEnsure(w, pc, e); }
    else if InPass(pc) { ProperFeedPass(pc, e.resp); }
    else if InWorksheet(pc) { ProperFeedWorksheet(w, pc, e); }
    else { ProperFeedHandler(w, pc, e); }
  }

  lemma ProperFeedEnsure(w: World, pc: Pc, e: Ev)
    requires GoodWorld(w) && Proper(pc) && InEnsure(pc) && Legal(w, Request(pc), e)
    ensures Proper(Feed(pc, e.resp))
  {
    var a := e.resp;
    match pc {
      case TreeList(use) =>
        if a.Repos? { ScanProper(use, a.keys, map[]); }
        else if use.Ensure? && use.goal.Bind? { ProperResume(use.goal.k, Fail(502)); }
      case TreeScan(use, at, todo, tree) => ScanProper(use, todo, tree[at := if a.Bms? then a.bms else {}]);
      case CreatedLookup(_, _, k) => ProperResume(k, Ok); ProperResume(k, Fail(502));
      case CreatedRepo(_, _, k) => ProperResume(k, Fail(502));
      case CreatedProbe(_, _, k) => ProperResume(k, Fail(502));
      case BmCreate(_, _, goal) => if goal.Bind? { ProperResume(goal.k, Fail(502)); }
      case BindInsert(_, _, k) => ProperResume(k, Ok); ProperResume(k, Fail(502));
      case BindManage(_, k) => ProperResume(k, Ok); ProperResume(k, Fail(502));
    }
  }

  lemma ProperFeedPass(pc: Pc, a: Resp)
    requires InPass(pc)
    ensures Proper(Feed(pc, a))
  {
    if pc.DriftList? || pc.DriftDelete? || pc.DriftEvict? { ProperDriftPass(pc, a); }
    else if pc.PassOrder? && a.Order? { ProperBackfill(a.names, pc.mapped); }
  }

  lemma ProperDriftPass(pc: Pc, a: Resp)
    requires pc.DriftList? || pc.DriftDelete? || pc.DriftEvict?
    ensures Proper(Feed(pc, a))
  {
    if pc.DriftEvict? { ProperDrift(pc.rows, pc.m, pc.ms, pc.tree, pc.live); }
    else if pc.DriftList? && a.Rows? { ProperDrift(a.rows, pc.m, pc.ms, pc.tree, pc.live); }
  }

  lemma ProperFeedWorksheet(w: World, pc: Pc, e: Ev)
    requires Proper(pc) && InWorksheet(pc)
    ensures Proper(Feed(pc, e.resp))
  {
    match pc {
      case WsStart(_, job) => ProperExec(job);
      case WithdrawLookup(_, target) => ParsedDerived(target);
      case _ =>
    }
  }

  lemma ProperFeedHandler(w: World, pc: Pc, e: Ev)
    requires GoodWorld(w) && Proper(pc) && InHandler(pc) && Legal(w, Request(pc), e)
    ensures Proper(Feed(pc, e.resp))
  {
    if pc.ForkedLookup? { ParsedDerived(pc.parentSid); }
  }

  lemma ProperExec(job: Job)
    ensures Proper(Exec(job))
  {
    ParsedDerived(job.session);
  }

  lemma ScanProper(use: Use, todo: seq<Key>, tree: Tree)
    requires ProperUse(use) && CleanKeys(todo) && CleanTree(tree)
    ensures Proper(Scan(use, todo, tree))
  {
    if todo == [] { ProperTree(use, tree); }
  }

  /** What a handler on its rails may write. */
  predicate NamedWrite(q: Req) {
    match q
    case PostRepo(key) => CleanKey(key)
    case InsertRow(t, sid) => Derived(sid, t)
    case RenameRow(_, to, sid) => Derived(sid, to)
    case CachePut(sid, t) => sid == Naming(t)
    case _ => true
  }

  lemma ProperWrite(w: World, q: Req, e: Ev)
    requires GoodWorld(w) && NamedWrite(q)
    ensures GoodWorld(After(w, q, e))
  {
  }

  /** The naming invariant along one handler's run. */
  lemma {:induction false} ProperPath(w: World, pc: Pc, evs: seq<Ev>, w': World, pc': Pc)
    requires GoodWorld(w) && Proper(pc) && Path(w, pc, evs, w', pc')
    ensures GoodWorld(w') && Proper(pc')
    decreases |evs|
  {
    if evs != [] {
      ProperStep(w, pc, evs[0]);
      ProperPath(After(w, Request(pc), evs[0]), Feed(pc, evs[0].resp), evs[1..], w', pc');
    }
  }

  lemma GoodNext(s: Sys, act: Act, s': Sys)
    requires Good(s) && Next(s, act, s')
    ensures Good(s')
  {
    match act {
      case Spawn(_, pc) => ProperStart(pc);
      case Call(i, e) => ProperStep(s.w, s.procs[i], e);
      case _ =>
    }
  }

  /** In every state of every run the rows are named by their own triples. */
  lemma {:induction false} NamingHolds(b: seq<Sys>, acts: seq<Act>, n: nat)
    requires Behavior(b, acts) && Good(b[0]) && n < |b|
    ensures Good(b[n])
  {
    if n > 0 {
      NamingHolds(b, acts, n - 1);
      assert Next(b[n - 1], acts[n - 1], b[n - 1 + 1]);
      GoodNext(b[n - 1], acts[n - 1], b[n]);
    }
  }
}
