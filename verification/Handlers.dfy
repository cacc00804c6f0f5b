/** Every handler as the sequence of calls it makes: `Request` is the next call of a program
    counter, `Feed` is where the handler goes once the call is answered (events_sub.go,
    sessions_http.go, worksheets.go, reconcile.go, client_jj.go). */
module Handlers {
  import opened Names
  import opened Stores

  /** Error statuses below 500 are permanent, the others transient (errs.go). */
  datatype Status = Ok | Fail(code: nat)

  datatype Outcome = Status(st: Status) | Resolved(sid: string, t: Triple) | Adopted(sid: string, created: bool)

  datatype Event =
    | Created(sid: string) | Forked(sid: string, parent: string)
    | Renamed(from: string, to: string) | Deleted(sid: string)

  /** Worksheet actions with their arguments; `session` is the session the worksheet belongs to. */
  datatype Job =
    | ForkJob(session: string, bookmark: string, quest: string, baseRev: string)
    | DropJob(session: string, bookmark: string, target: string)

  /** Who called ensureCreated, ensureForkedAt or bindRow. */
  datatype Kont =
    | Return
    | Inherit(t: Triple, sid: string, parentBm: string)  // ensureForked, once the parent exists
    | NextSession(rest: seq<string>, mapped: set<string>) // backfillWorkspaces loop
    | AgentFork(parent: string, sid: string)             // execForkRequest

  /** What EnsureBookmark was called for. */
  datatype Goal = Bind(sid: string, k: Kont) | Move(from: Triple)

  /** What DeleteBookmark was called for. */
  datatype DropGoal = Finish | Unmap(sid: string)

  type Tree = map<Key, set<string>>

  /** What GetRepoTree was called for. */
  datatype Use =
    | Ensure(t: Triple, rev: Rev, goal: Goal)
    | Drop(t: Triple, after: DropGoal)
    | Adopt(t: Triple)
    | Drift(ms: seq<Key>, live: set<string>)

  datatype Pc =
    | End(out: Outcome)
    // GetRepoTree
    | TreeList(use: Use) | TreeScan(use: Use, at: Key, todo: seq<Key>, tree: Tree)
    // ensureCreated, EnsureBookmark, bindRow
    | CreatedLookup(t: Triple, sid: string, k: Kont) | CreatedRepo(t: Triple, sid: string, k: Kont)
    | CreatedProbe(t: Triple, sid: string, k: Kont)
    | BmCreate(t: Triple, rev: Rev, goal: Goal)
    | BindInsert(t: Triple, sid: string, k: Kont) | BindManage(key: Key, k: Kont)
    // ensureForked
    | ForkedLookup(t: Triple, sid: string, parentSid: string) | ForkedParent(t: Triple, sid: string, p: Triple)
    // ensureRenamed
    | RenameGet(from: Triple, to: Triple) | RenameMove(from: Triple, to: Triple) | RenameEvict(from: Triple)
    // DeleteBookmark, ensureDeleted
    | DropCall(t: Triple, after: DropGoal) | DeletedLookup(t: Triple, sid: string)
    | UnmapRow(t: Triple, sid: string) | UnmapEvict(sid: string)
    // adoptBookmark
    | AdoptGet(t: Triple) | AdoptSession(t: Triple) | AdoptInsert(t: Triple)
    // onCallHook, execForkRequest, execDeleteBookmark
    | WsClaim(id: string, job: Job) | WsStart(id: string, job: Job)
    | ForkAtLookup(t: Triple, sid: string, rev: Rev, parent: string)
    | ForkAtRepo(t: Triple, sid: string, rev: Rev, parent: string)
    | AgentForkCall(parent: string, sid: string)
    | WithdrawSession(t: Triple, target: string) | WithdrawLookup(t: Triple, target: string)
    // resolveSession
    | ResolveHit(sid: string) | ResolveRow(sid: string) | ResolvePut(sid: string, t: Triple)
    // reconcileOnce
    | PassSessions | PassManaged(live: set<string>)
    | DriftList(m: Key, ms: seq<Key>, tree: Tree, live: set<string>)
    | DriftDelete(row: Row, rows: seq<Row>, m: Key, ms: seq<Key>, tree: Tree, live: set<string>)
    | DriftEvict(row: Row, rows: seq<Row>, m: Key, ms: seq<Key>, tree: Tree, live: set<string>)
    | PassRows(live: set<string>) | PassOrder(live: set<string>, mapped: set<string>)

  function Stop(st: Status): Pc { End(Status(st)) }

  function Error(code: nat): Pc { Stop(Fail(code)) }

  // ---- where each handler starts ----

  function OnEvent(e: Event): Pc {
    match e
    case Created(sid) => (match Parse(sid) case None => Error(400) case Some(t) => CreatedLookup(t, sid, Return))
    case Forked(sid, parent) => (match Parse(sid) case None => Error(400) case Some(t) => ForkedLookup(t, sid, parent))
    case Renamed(from, to) =>
      var f, t := Parse(from), Parse(to);
      if f.None? || t.None? || f.value.key != t.value.key then Error(400) else RenameGet(f.value, t.value)
    case Deleted(sid) => (match Parse(sid) case None => Error(400) case Some(t) => DeletedLookup(t, sid))
  }

  /** A decided worksheet: only an approved one with an id claims anything. */
  function OnDecision(id: string, approved: bool, job: Job): Pc {
    if id == "" then Error(400) else if !approved then Stop(Ok) else WsClaim(id, job)
  }

  function Exec(job: Job): Pc {
    match Parse(job.session)
    case None => Error(400)
    case Some(own) =>
      var t := Triple(own.key, job.bookmark);
      match job
      case ForkJob(session, bookmark, quest, baseRev) =>
        if bookmark == "" || quest == "" then Error(400)
        else ForkAtLookup(t, Naming(t), if baseRev == "" then Tip(own.bm) else At(baseRev), session)
      case DropJob(session, bookmark, target) =>
        if bookmark == "" || bookmark == own.bm || bookmark == MAIN then Error(400)
        else WithdrawSession(t, if target == "" then Naming(t) else target)
  }

  // ---- joints between routines ----

  function Resume(k: Kont, st: Status): Pc {
    match k
    case Return => Stop(st)
    case Inherit(t, sid, parentBm) => if st.Ok? then TreeList(Ensure(t, Tip(parentBm), Bind(sid, Return))) else Stop(st)
    case NextSession(rest, mapped) => if st.Ok? || st.code < 500 then Backfill(rest, mapped) else Stop(st)
    case AgentFork(parent, sid) => if st.Ok? then AgentForkCall(parent, sid) else Stop(st)
  }

  function Anchored(t: Triple, goal: Goal): Pc {
    match goal case Bind(sid, k) => BindInsert(t, sid, k) case Move(from) => RenameMove(from, t)
  }

  function Aborted(goal: Goal, code: nat): Pc {
    match goal case Bind(_, k) => Resume(k, Fail(code)) case Move(_) => Error(code)
  }

  function Dropped(t: Triple, after: DropGoal): Pc {
    match after case Finish => Stop(Ok) case Unmap(sid) => UnmapRow(t, sid)
  }

  function Scan(use: Use, todo: seq<Key>, tree: Tree): Pc {
    if todo == [] then UseTree(use, tree) else TreeScan(use, todo[0], todo[1..], tree)
  }

  function NoTree(use: Use): Pc {
    if use.Ensure? then Aborted(use.goal, 502) else Error(502)
  }

  predicate Shows(tree: Tree, t: Triple) {
    t.key in tree && t.bm in tree[t.key]
  }

  function UseTree(use: Use, tree: Tree): Pc {
    match use
    case Ensure(t, rev, goal) =>
      if Shows(tree, t) then Anchored(t, goal)
      else if t.key !in tree then Aborted(goal, 404)
      else BmCreate(t, rev, goal)
    case Drop(t, after) => if Shows(tree, t) then DropCall(t, after) else Dropped(t, after)
    case Adopt(t) => if Shows(tree, t) then AdoptSession(t) else Error(404)
    case Drift(ms, live) => DriftRepo(ms, tree, live)
  }

  function DriftRepo(ms: seq<Key>, tree: Tree, live: set<string>): Pc {
    if ms == [] then PassRows(live) else DriftList(ms[0], ms[1..], tree, live)
  }

  predicate Keeps(row: Row, m: Key, tree: Tree, live: set<string>) {
    Shows(tree, Triple(m, row.t.bm)) && row.sid in live
  }

  /** The rows of repository m that are left to judge; ms are the repositories after it. */
  function DriftRows(rows: seq<Row>, m: Key, ms: seq<Key>, tree: Tree, live: set<string>): Pc {
    if rows == [] then DriftRepo(ms, tree, live)
    else if Keeps(rows[0], m, tree, live) then DriftRows(rows[1..], m, ms, tree, live)
    else DriftDelete(rows[0], rows[1..], m, ms, tree, live)
  }

  function Backfill(rest: seq<string>, mapped: set<string>): Pc {
    if rest == [] then Stop(Ok)
    else if rest[0] in mapped then Backfill(rest[1..], mapped)
    else match Parse(rest[0])
      case None => Backfill(rest[1..], mapped)
      case Some(t) => CreatedLookup(t, rest[0], NextSession(rest[1..], mapped))
  }

  // ---- the next call, and what follows its answer ----

  function Request(pc: Pc): Req
    requires !pc.End?
  {
    match pc
    case TreeList(_) => ListRepos
    case TreeScan(_, at, _, _) => ListBookmarks(at)
    case CreatedLookup(_, sid, _) => GetRowBySession(sid)
    case CreatedRepo(t, _, _) => PostRepo(t.key)
    case CreatedProbe(t, _, _) => ListBookmarks(t.key)
    case BmCreate(t, rev, _) => CreateBookmark(t, rev)
    case BindInsert(t, sid, _) => InsertRow(t, sid)
    case BindManage(key, _) => InsertManaged(key)
    case ForkedLookup(_, sid, _) => GetRowBySession(sid)
    case ForkedParent(_, _, p) => GetRow(p)
    case RenameGet(from, _) => GetRow(from)
    case RenameMove(from, to) => RenameRow(from, to, Naming(to))
    case RenameEvict(from) => CacheEvict(Naming(from))
    case DropCall(t, _) => DropBookmark(t)
    case DeletedLookup(_, sid) => GetRowBySession(sid)
    case UnmapRow(t, _) => DeleteRow(t)
    case UnmapEvict(sid) => CacheEvict(sid)
    case AdoptGet(t) => GetRow(t)
    case AdoptSession(t) => EnsureSession(Naming(t))
    case AdoptInsert(t) => InsertRow(t, Naming(t))
    case WsClaim(id, _) => Claim(id)
    case WsStart(id, _) => StartExec(id)
    case ForkAtLookup(_, sid, _, _) => GetRowBySession(sid)
    case ForkAtRepo(t, _, _, _) => PostRepo(t.key)
    case AgentForkCall(parent, sid) => ForkSession(parent, sid)
    case WithdrawSession(_, target) => DeleteSession(target)
    case WithdrawLookup(_, target) => GetRowBySession(target)
    case ResolveHit(sid) => CacheGet(sid)
    case ResolveRow(sid) => GetRowBySession(sid)
    case ResolvePut(sid, t) => CachePut(sid, t)
    case PassSessions => ListSessions
    case PassManaged(_) => ListManaged
    case DriftList(m, _, _, _) => ListRowsForRepo(m)
    case DriftDelete(row, _, _, _, _, _) => DeleteRow(row.t)
    case DriftEvict(row, _, _, _, _, _) => CacheEvict(row.sid)
    case PassRows(_) => ListRows
    case PassOrder(live, _) => Shuffle(live)
  }

  function Feed(pc: Pc, a: Resp): Pc
    requires !pc.End?
  {
    match pc
    case TreeList(use) => if a.Repos? then Scan(use, a.keys, map[]) else NoTree(use)
    case TreeScan(use, at, todo, tree) =>
      // a repository whose listing fails still surfaces, as empty
      Scan(use, todo, tree[at := if a.Bms? then a.bms else {}])
    case CreatedLookup(t, sid, k) =>
      if !a.Found? then Resume(k, Fail(502)) else if a.row.Some? then Resume(k, Ok) else CreatedRepo(t, sid, k)
    case CreatedRepo(t, sid, k) => if a.Done? then CreatedProbe(t, sid, k) else Resume(k, Fail(502))
    case CreatedProbe(t, sid, k) =>
      if a.Bms? then TreeList(Ensure(t, Tip(MAIN), Bind(sid, k)))
      else if a.NotFound? then TreeList(Ensure(t, Head, Bind(sid, k)))
      else Resume(k, Fail(502))
    case BmCreate(t, _, goal) => if a.Done? then Anchored(t, goal) else Aborted(goal, 502)
    case BindInsert(t, _, k) =>
      if a.Done? then BindManage(t.key, k) else if a.Conflict? then Resume(k, Ok) else Resume(k, Fail(502))
    case BindManage(_, k) => Resume(k, if a.Done? then Ok else Fail(502))
    case ForkedLookup(t, sid, parentSid) =>
      if !a.Found? then Error(502) else if a.row.Some? then Stop(Ok)
      else (match Parse(parentSid)
            case None => TreeList(Ensure(t, Tip(MAIN), Bind(sid, Return)))
            case Some(p) => if p.key != t.key then Error(400) else ForkedParent(t, sid, p))
    case ForkedParent(t, sid, p) =>
      if !a.Found? then Error(502)
      else if a.row.Some? then Resume(Inherit(t, sid, p.bm), Ok)
      else CreatedLookup(p, Naming(p), Inherit(t, sid, p.bm))
    case RenameGet(from, to) =>
      if !a.Found? then Error(502)
      else if a.row.None? then CreatedLookup(to, Naming(to), Return)
      else TreeList(Ensure(to, Tip(from.bm), Move(from)))
    case RenameMove(from, _) => if a.Done? then RenameEvict(from) else if a.Conflict? then Stop(Ok) else Error(502)
    case RenameEvict(from) => TreeList(Drop(from, Finish))
    case DropCall(t, after) => if a.Done? then Dropped(t, after) else Error(502)
    case DeletedLookup(t, sid) =>
      if !a.Found? then Error(502) else if a.row.None? then Stop(Ok) else TreeList(Drop(t, Unmap(sid)))
    case UnmapRow(_, sid) => if a.Done? then UnmapEvict(sid) else Error(502)
    case UnmapEvict(_) => Stop(Ok)
    case AdoptGet(t) =>
      if !a.Found? then Error(502)
      else if a.row.Some? then End(Adopted(a.row.value.sid, false)) else TreeList(Adopt(t))
    case AdoptSession(t) => if a.Done? then AdoptInsert(t) else Error(502)
    case AdoptInsert(t) =>
      if a.Done? then End(Adopted(Naming(t), true)) else if a.Conflict? then Error(409) else Error(502)
    case WsClaim(id, job) => if !a.First? then Error(500) else if a.yes then WsStart(id, job) else Stop(Ok)
    case WsStart(_, job) => Exec(job)
    case ForkAtLookup(t, sid, rev, parent) =>
      if !a.Found? then Error(502)
      else if a.row.Some? then Resume(AgentFork(parent, sid), Ok) else ForkAtRepo(t, sid, rev, parent)
    case ForkAtRepo(t, sid, rev, parent) =>
      if a.Done? then TreeList(Ensure(t, rev, Bind(sid, AgentFork(parent, sid)))) else Error(502)
    case AgentForkCall(_, _) => if a.Done? then Stop(Ok) else Error(502)
    case WithdrawSession(t, target) => if a.Done? then WithdrawLookup(t, target) else Error(502)
    case WithdrawLookup(t, target) =>
      if !a.Found? then Error(502)
      else if a.row.None? then TreeList(Drop(t, Finish))
      else (match Parse(target) case None => Error(400) case Some(u) => DeletedLookup(u, target))
    case ResolveHit(sid) => if a.Hit? && a.t.Some? then End(Resolved(sid, a.t.value)) else ResolveRow(sid)
    case ResolveRow(sid) =>
      if !a.Found? then Error(502)
      else if a.row.None? then Error(if Parse(sid).None? then 400 else 404)
      else ResolvePut(sid, a.row.value.t)
    case ResolvePut(sid, t) => End(Resolved(sid, t))
    case PassSessions => if a.Sids? then PassManaged(a.sids) else Error(502)
    case PassManaged(live) =>
      if !a.Repos? then Error(502) else if a.keys == [] then PassRows(live) else TreeList(Drift(a.keys, live))
    case DriftList(m, ms, tree, live) => if a.Rows? then DriftRows(a.rows, m, ms, tree, live) else Error(502)
    case DriftDelete(row, rows, m, ms, tree, live) =>
      if a.Done? then DriftEvict(row, rows, m, ms, tree, live) else Error(502)
    case DriftEvict(_, rows, m, ms, tree, live) => DriftRows(rows, m, ms, tree, live)
    case PassRows(live) => if a.Rows? then PassOrder(live, set r | r in a.rows :: r.sid) else Error(502)
    case PassOrder(_, mapped) => if a.Order? then Backfill(a.names, mapped) else Error(502)
  }

  // ---- what leads to a claim, an execution or a resolution ----

  /** Not about to claim or execute a worksheet, to fill the cache, or done resolving. */
  predicate Plain(pc: Pc) {
    !pc.WsClaim? && !pc.WsStart? && !pc.ResolvePut? && (pc.End? ==> !pc.out.Resolved?)
  }

  // the four groups of program counters

  predicate InEnsure(pc: Pc) {
    pc.TreeList? || pc.TreeScan? || pc.CreatedLookup? || pc.CreatedRepo? || pc.CreatedProbe?
    || pc.BmCreate? || pc.BindInsert? || pc.BindManage?
  }

  predicate InPass(pc: Pc) {
    pc.PassSessions? || pc.PassManaged? || pc.DriftList? || pc.DriftDelete? || pc.DriftEvict? || pc.PassRows?
    || pc.PassOrder?
  }

  predicate InWorksheet(pc: Pc) {
    pc.WsClaim? || pc.WsStart? || pc.ForkAtLookup? || pc.ForkAtRepo? || pc.AgentForkCall?
    || pc.WithdrawSession? || pc.WithdrawLookup?
  }

  predicate InHandler(pc: Pc) {
    !pc.End? && !InEnsure(pc) && !InPass(pc) && !InWorksheet(pc)
  }

  /** Apart from the claim and resolveSession, no call leads to any of these. */
  lemma PlainFeed(pc: Pc, a: Resp)
    requires !pc.End? && !pc.WsClaim? && !pc.ResolveHit? && !pc.ResolveRow? && !pc.ResolvePut?
    ensures Plain(Feed(pc, a))
  {
    if InEnsure(pc) { PlainEnsure(pc, a); }
    else if InPass(pc) { PlainPass(pc, a); }
    else if InWorksheet(pc) { PlainWorksheet(pc, a); }
    else { PlainHandler(pc, a); }
  }

  lemma PlainEnsure(pc: Pc, a: Resp)
    requires InEnsure(pc)
    ensures Plain(Feed(pc, a))
  {
    forall k, st ensures Plain(Resume(k, st)) { PlainResume(k, st); }
  }

  lemma PlainPass(pc: Pc, a: Resp)
    requires InPass(pc)
    ensures Plain(Feed(pc, a))
  {
    if pc.DriftList? || pc.DriftEvict? || pc.DriftDelete? { PlainDriftPass(pc, a); }
    else if pc.PassOrder? && a.Order? { PlainBackfill(a.names, pc.mapped); }
  }

  lemma PlainDriftPass(pc: Pc, a: Resp)
    requires pc.DriftList? || pc.DriftEvict? || pc.DriftDelete?
    ensures Plain(Feed(pc, a))
  {
    if pc.DriftEvict? { PlainDrift(pc.rows, pc.m, pc.ms, pc.tree, pc.live); }
    else if pc.DriftList? && a.Rows? { PlainDrift(a.rows, pc.m, pc.ms, pc.tree, pc.live); }
  }

  lemma PlainWorksheet(pc: Pc, a: Resp)
    requires InWorksheet(pc) && !pc.WsClaim?
    ensures Plain(Feed(pc, a))
  {
  }

  lemma PlainHandler(pc: Pc, a: Resp)
    requires InHandler(pc) && !pc.ResolveHit? && !pc.ResolveRow? && !pc.ResolvePut?
    ensures Plain(Feed(pc, a))
  {
  }

  lemma PlainResume(k: Kont, st: Status)
    ensures Plain(Resume(k, st))
  {
    if k.NextSession? { PlainBackfill(k.rest, k.mapped); }
  }

  lemma {:induction false} PlainDrift(rows: seq<Row>, m: Key, ms: seq<Key>, tree: Tree, live: set<string>)
    ensures Plain(DriftRows(rows, m, ms, tree, live))
  {
    if rows != [] { PlainDrift(rows[1..], m, ms, tree, live); }
  }

  lemma {:induction false} PlainBackfill(rest: seq<string>, mapped: set<string>)
    ensures Plain(Backfill(rest, mapped))
  {
    if rest != [] { PlainBackfill(rest[1..], mapped); }
  }
}
