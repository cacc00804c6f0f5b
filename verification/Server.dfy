/** The handlers in the form they are written: methods that make one call after another and act on the
    answers (events_sub.go, sessions_http.go, worksheets.go, reconcile.go, client_jj.go). Ghost fields record
    the calls made; each method is proved to take exactly the course the program counters of Handlers
    describe, so that everything proved about those holds of these methods. */
module Server {
  import opened Names
  import opened Stores
  import opened Handlers
  import opened BigStep
  import opened Clients
  import opened NamingInvariant
  import opened Stabilise
  import opened Reconcile
  import opened Acknowledged
  import opened Adoption
  import opened Conclusions
  import opened Executions
  import opened Resolution
  import opened Verdicts

  lemma {:induction false} PathSnoc(w: World, pc: Pc, evs: seq<Ev>, w1: World, pc1: Pc, e: Ev)
    requires Path(w, pc, evs, w1, pc1) && !pc1.End? && Legal(w1, Request(pc1), e)
    ensures Path(w, pc, evs + [e], After(w1, Request(pc1), e), Feed(pc1, e.resp))
    decreases |evs|
  {
    hide Feed, Request, After, Legal;
    if evs == [] {
      assert evs + [e] == [e] && [e][1..] == [];
      assert Path(After(w1, Request(pc1), e), Feed(pc1, e.resp), [], After(w1, Request(pc1), e), Feed(pc1, e.resp));
    } else {
      PathSnoc(After(w, Request(pc), evs[0]), Feed(pc, evs[0].resp), evs[1..], w1, pc1, e);
      assert (evs + [e])[1..] == evs[1..] + [e];
    }
  }

  lemma NextRow(rows: seq<Row>, i: nat, m: Key, ms: seq<Key>, tree: Tree, live: set<string>)
    requires i < |rows|
    ensures DriftRows(rows[i..], m, ms, tree, live)
            == if Keeps(rows[i], m, tree, live) then DriftRows(rows[i + 1..], m, ms, tree, live)
               else DriftDelete(rows[i], rows[i + 1..], m, ms, tree, live)
  {
    assert rows[i..][1..] == rows[i + 1..];
  }

  lemma NoMoreRows(rows: seq<Row>, m: Key, ms: seq<Key>, tree: Tree, live: set<string>)
    ensures DriftRows(rows[|rows|..], m, ms, tree, live) == DriftRepo(ms, tree, live)
  {
  }

  lemma NextName(names: seq<string>, i: nat, mapped: set<string>)
    requires i < |names|
    ensures Backfill(names[i..], mapped)
            == if names[i] in mapped || Parse(names[i]).None? then Backfill(names[i + 1..], mapped)
               else CreatedLookup(Parse(names[i]).value, names[i], NextSession(names[i + 1..], mapped))
  {
    assert names[i..][1..] == names[i + 1..];
  }

  lemma NoMoreNames(names: seq<string>, mapped: set<string>)
    ensures Backfill(names[|names|..], mapped) == Stop(Ok)
  {
  }

  /** A rejected worksheet is inert, and so is one that was claimed before, whether or not the call fails. */
  lemma NothingToExecute(w: World, id: string, approved: bool, job: Job, evs: seq<Ev>, w': World, o: Outcome)
    requires Path(w, OnDecision(id, approved, job), evs, w', End(o)) && (!approved || id in w.claimed)
    ensures w' == w
  {
    hide Exec;
    var pc := OnDecision(id, approved, job);
    if pc.WsClaim? {
      assert w.claimed + {id} == w.claimed;
      var e := evs[0];
      assert Path(After(w, Claim(id), e), Feed(pc, e.resp), evs[1..], w', End(o));
    }
  }

  /** What the decision hook is called with; a missing argument is empty. */
  datatype Decision = Decision(worksheetId: string, action: string, decision: string, session: string,
                               bookmark: string, quest: string, baseRev: string, target: string)

  datatype Reply = Accepted | NoHook | Invalid | Internal

  /** The registered actions, for the session named or else the one the hook was called for. */
  function JobOf(c: Decision, sessionName: string): Option<Job> {
    var session := if c.session == "" then sessionName else c.session;
    if c.action == "fork-bookmark" then Some(ForkJob(session, c.bookmark, c.quest, c.baseRev))
    else if c.action == "delete-bookmark" then Some(DropJob(session, c.bookmark, c.target))
    else None
  }

  predicate Resolving(pc: Pc) {
    pc.ResolveHit? || pc.ResolveRow? || pc.ResolvePut? || pc.End?
  }

  /** A resolution touches nothing but the cache. */
  lemma {:induction false} ResolvingKeeps(w: World, pc: Pc, evs: seq<Ev>, w': World, pc': Pc)
    requires Resolving(pc) && Path(w, pc, evs, w', pc')
    ensures w' == w.(cache := w'.cache)
    decreases |evs|
  {
    hide After, Feed, Request, Resolving;
    if evs != [] {
      ResolvingStep(w, pc, evs[0]);
      ResolvingKeeps(After(w, Request(pc), evs[0]), Feed(pc, evs[0].resp), evs[1..], w', pc');
    }
  }

  lemma ResolvingStep(w: World, pc: Pc, e: Ev)
    requires Resolving(pc) && !pc.End?
    ensures var w1 := After(w, Request(pc), e); Resolving(Feed(pc, e.resp)) && w1 == w.(cache := w1.cache)
  {
    hide Naming, Parse;
  }

  class Service {
    const ag: Agent
    const jj: JjLab
    const store: Store
    const cache: SessCache
    var now: nat
    ghost var started: multiset<string>

    // the run of the current handler: where it began, the calls so far, and where it is
    ghost var began: World
    ghost var entry: Pc
    ghost var log: seq<Ev>
    ghost var at: Pc

    constructor (ag: Agent, jj: JjLab, store: Store, now: nat)
      ensures this.ag == ag && this.jj == jj && this.store == store && this.now == now
      ensures fresh(cache) && cache.m == map[]
    {
      this.ag, this.jj, this.store, this.now := ag, jj, store, now;
      cache := new SessCache();
    }

    /** The state of everything the service works on. */
    ghost function W(): World
      reads this, ag, jj, store, cache
    {
      World(ag.sessions, jj.repos, store.rows, store.managed, store.claimed, started, cache.m, now)
    }

    /** The calls made so far lead from where the handler began to where it is. */
    ghost predicate Running()
      reads this, ag, jj, store, cache
    {
      Path(began, entry, log, W(), at)
    }

    /** The run of a decision on this job; what it comes to if it is approved and the first. */
    ghost predicate Answered(w: World, c: Decision, job: Job, st: Status)
      reads this, ag, jj, store, cache
    {
      && Path(w, OnDecision(c.worksheetId, c.decision == "approve", job), log, W(), Stop(st))
      && (Sound(w) && c.decision == "approve" && c.worksheetId !in w.claimed ==>
            Decided(w, c.worksheetId, job, log, W(), st))
    }

    /** Still the same run. */
    twostate predicate Continues()
      reads this, ag, jj, store, cache
    {
      Running() && began == old(began) && entry == old(entry)
    }

    ghost method Begin(pc: Pc)
      modifies `began, `entry, `log, `at
      ensures Running() && began == W() && entry == pc && at == pc && log == []
    {
      began, entry, log, at := W(), pc, [], pc;
    }

    // ---- calls ----

    method AskAgent(q: Req) returns (a: Resp, ghost took: bool)
      requires q.ListSessions? || q.EnsureSession? || q.ForkSession? || q.DeleteSession?
      modifies ag
      ensures Legal(old(W()), q, Ev(a, took)) && W() == After(old(W()), q, Ev(a, took))
    {
      took := true;
      match q {
        case ListSessions => a := ag.ListSessions();
        case EnsureSession(sid) => a, took := ag.EnsureSession(sid);
        case ForkSession(parent, sid) => a, took := ag.ForkSession(parent, sid);
        case DeleteSession(sid) => a, took := ag.DeleteSession(sid);
      }
    }

    method AskJj(q: Req) returns (a: Resp, ghost took: bool)
      requires q.ListRepos? || q.PostRepo? || q.ListBookmarks? || q.CreateBookmark? || q.DropBookmark?
      modifies jj
      ensures Legal(old(W()), q, Ev(a, took)) && W() == After(old(W()), q, Ev(a, took))
    {
      took := true;
      match q {
        case ListRepos => a := jj.ListRepos();
        case PostRepo(key) => a, took := jj.PostRepo(key);
        case ListBookmarks(key) => a := jj.ListBookmarks(key);
        case CreateBookmark(t, rev) => a, took := jj.CreateBookmark(t, rev);
        case DropBookmark(t) => a, took := jj.DropBookmark(t);
      }
    }

    method QueryStore(q: Req) returns (a: Resp)
      requires q.GetRow? || q.GetRowBySession? || q.ListRows? || q.ListRowsForRepo? || q.ListManaged?
      ensures Legal(old(W()), q, Ev(a, true)) && W() == After(old(W()), q, Ev(a, true))
    {
      match q {
        case GetRow(t) => a := store.GetRow(t);
        case GetRowBySession(sid) => a := store.GetRowBySession(sid);
        case ListRows => a := store.ListRows();
        case ListRowsForRepo(key) => a := store.ListRowsForRepo(key);
        case ListManaged => a := store.ListManaged();
      }
    }

    method UpdateStore(q: Req) returns (a: Resp, ghost took: bool)
      requires q.InsertRow? || q.RenameRow? || q.DeleteRow? || q.InsertManaged? || q.Claim?
      modifies store
      ensures Legal(old(W()), q, Ev(a, took)) && W() == After(old(W()), q, Ev(a, took))
    {
      match q {
        case InsertRow(t, sid) => a, took := store.InsertRow(t, sid);
        case RenameRow(from, to, sid) => a, took := store.RenameRow(from, to, sid);
        case DeleteRow(t) => a, took := store.DeleteRow(t);
        case InsertManaged(key) => a, took := store.InsertManaged(key);
        case Claim(id) => a, took := store.ExecutedWorksheet(id);
      }
    }

    method AskLocal(q: Req) returns (a: Resp, ghost took: bool)
      requires Local(q)
      modifies cache, `started
      ensures Legal(old(W()), q, Ev(a, took)) && W() == After(old(W()), q, Ev(a, took))
    {
      took, a := true, Done;
      match q {
        case CacheGet(sid) =>
          var hit := cache.Get(sid, now);
          a := Hit(hit);
        case CachePut(sid, t) => cache.Put(sid, t, now);
        case CacheEvict(sid) => cache.Evict(sid);
        case Shuffle(names) =>
          var order := Listing(names);
          a := Order(order);
        case StartExec(id) => started := started + multiset{id};
      }
    }

    /** One call of the running handler: the one its program counter asks for. */
    method Call(q: Req) returns (a: Resp)
      requires Running() && !at.End? && q == Request(at)
      modifies this, ag, jj, store, cache
      ensures Continues() && at == Feed(old(at), a)
    {
      hide Feed, Request, Legal, After, Path;
      ghost var was, took := W(), true;
      if q.ListSessions? || q.EnsureSession? || q.ForkSession? || q.DeleteSession? {
        a, took := AskAgent(q);
      } else if q.ListRepos? || q.PostRepo? || q.ListBookmarks? || q.CreateBookmark? || q.DropBookmark? {
        a, took := AskJj(q);
      } else if Local(q) {
        a, took := AskLocal(q);
      } else if q.GetRow? || q.GetRowBySession? || q.ListRows? || q.ListRowsForRepo? || q.ListManaged? {
        a := QueryStore(q);
      } else {
        a, took := UpdateStore(q);
      }
      PathSnoc(began, entry, log, was, at, Ev(a, took));
      log, at := log + [Ev(a, took)], Feed(at, a);
    }

    // ---- client_jj.go ----

    /** Lists the repositories, then each one's bookmarks; one whose listing fails shows up empty. */
    method GetRepoTree(ghost use: Use) returns (tree: Option<Tree>)
      requires Running() && at == TreeList(use)
      modifies this, ag, jj, store, cache
      ensures Continues() && at == if tree.Some? then UseTree(use, tree.value) else NoTree(use)
    {
      hide Running;
      var a := Call(ListRepos);
      if !a.Repos? {
        return None;
      }
      var t: Tree := map[];
      var i := 0;
      while i < |a.keys|
        invariant 0 <= i <= |a.keys|
        invariant Continues() && at == Scan(use, a.keys[i..], t)
      {
        assert a.keys[i..][1..] == a.keys[i + 1..];
        var b := Call(ListBookmarks(a.keys[i]));
        t := t[a.keys[i] := if b.Bms? then b.bms else {}];
        i := i + 1;
      }
      tree := Some(t);
    }

    method EnsureBookmark(t: Triple, src: Rev, ghost goal: Goal) returns (st: Status)
      requires Running() && at == TreeList(Ensure(t, src, goal))
      modifies this, ag, jj, store, cache
      ensures Continues() && at == if st.Ok? then Anchored(t, goal) else Aborted(goal, st.code)
    {
      hide Running;
      var tree := GetRepoTree(Ensure(t, src, goal));
      if tree.None? {
        return Fail(502);
      }
      if Shows(tree.value, t) {
        return Ok;
      }
      if t.key !in tree.value {
        return Fail(404);
      }
      var a := Call(CreateBookmark(t, src));
      st := if a.Done? then Ok else Fail(502);
    }

    method DeleteBookmark(t: Triple, ghost after: DropGoal) returns (st: Status)
      requires Running() && at == TreeList(Drop(t, after))
      modifies this, ag, jj, store, cache
      ensures Continues() && (st == Ok || st == Fail(502)) && at == if st.Ok? then Dropped(t, after) else Stop(st)
    {
      hide Running;
      var tree := GetRepoTree(Drop(t, after));
      if tree.None? {
        return Fail(502);
      }
      if !Shows(tree.value, t) {
        return Ok;
      }
      var a := Call(DropBookmark(t));
      st := if a.Done? then Ok else Fail(502);
    }

    // ---- sessions_http.go ----

    method BindRow(t: Triple, sid: string, ghost k: Kont) returns (st: Status)
      requires Running() && at == BindInsert(t, sid, k)
      modifies this, ag, jj, store, cache
      ensures Continues() && at == Resume(k, st)
    {
      hide Running;
      var a := Call(InsertRow(t, sid));
      if a.Conflict? {
        return Ok;
      }
      if !a.Done? {
        return Fail(502);
      }
      var b := Call(InsertManaged(t.key));
      st := if b.Done? then Ok else Fail(502);
    }

    // ---- events_sub.go ----

    method EnsureBookmarkAnchored(t: Triple, ghost sid: string, ghost k: Kont) returns (st: Status)
      requires Running() && at == CreatedProbe(t, sid, k)
      modifies this, ag, jj, store, cache
      ensures Continues() && at == if st.Ok? then BindInsert(t, sid, k) else Resume(k, st)
    {
      hide Running;
      var anchor := Tip(MAIN);
      var a := Call(ListBookmarks(t.key));
      if a.NotFound? {
        anchor := Head;
      } else if !a.Bms? {
        return Fail(502);
      }
      st := EnsureBookmark(t, anchor, Bind(sid, k));
    }

    method EnsureCreated(t: Triple, sid: string, ghost k: Kont) returns (st: Status)
      requires Running() && at == CreatedLookup(t, sid, k)
      modifies this, ag, jj, store, cache
      ensures Continues() && at == Resume(k, st)
    {
      hide Running;
      var a := Call(GetRowBySession(sid));
      if !a.Found? {
        return Fail(502);
      }
      if a.row.Some? {
        return Ok;
      }
      var b := Call(PostRepo(t.key));
      if !b.Done? {
        return Fail(502);
      }
      st := EnsureBookmarkAnchored(t, sid, k);
      if st.Ok? {
        st := BindRow(t, sid, k);
      }
    }

    method EnsureForked(t: Triple, sid: string, parentSid: string) returns (st: Status)
      requires Running() && at == ForkedLookup(t, sid, parentSid)
      modifies this, ag, jj, store, cache
      ensures Continues() && at == Stop(st)
    {
      hide Running;
      var a := Call(GetRowBySession(sid));
      if !a.Found? {
        return Fail(502);
      }
      if a.row.Some? {
        return Ok;
      }
      var parentBm := MAIN;
      var p := Parse(parentSid);
      if p.Some? {
        if p.value.key != t.key {
          return Fail(400);
        }
        parentBm := p.value.bm;
        st := EnsureParent(t, sid, p.value);
        if st.Fail? {
          return;
        }
      }
      st := BranchFrom(t, sid, parentBm);
    }

    method BranchFrom(t: Triple, sid: string, parentBm: string) returns (st: Status)
      requires Running() && at == TreeList(Ensure(t, Tip(parentBm), Bind(sid, Return)))
      modifies this, ag, jj, store, cache
      ensures Continues() && at == Stop(st)
    {
      hide Running;
      st := EnsureBookmark(t, Tip(parentBm), Bind(sid, Return));
      if st.Ok? {
        st := BindRow(t, sid, Return);
      }
    }

    /** The parent is materialised first when it has no row. */
    method EnsureParent(ghost t: Triple, ghost sid: string, p: Triple) returns (st: Status)
      requires Running() && at == ForkedParent(t, sid, p)
      modifies this, ag, jj, store, cache
      ensures Continues() && at == Resume(Inherit(t, sid, p.bm), st)
    {
      hide Running;
      var a := Call(GetRow(p));
      if !a.Found? {
        return Fail(502);
      }
      if a.row.Some? {
        return Ok;
      }
      st := EnsureCreated(p, Naming(p), Inherit(t, sid, p.bm));
    }

    method EnsureRenamed(from: Triple, to: Triple) returns (st: Status)
      requires Running() && at == RenameGet(from, to)
      modifies this, ag, jj, store, cache
      ensures Continues() && at == Stop(st)
    {
      hide Running;
      var a := Call(GetRow(from));
      if !a.Found? {
        return Fail(502);
      }
      if a.row.None? {
        st := EnsureCreated(to, Naming(to), Return);
        return;
      }
      st := EnsureBookmark(to, Tip(from.bm), Move(from));
      if st.Fail? {
        return;
      }
      st := MoveRowTo(from, to);
    }

    /** The row first, then the cache, then the old bookmark; a conflict means another rename has won. */
    method MoveRowTo(from: Triple, to: Triple) returns (st: Status)
      requires Running() && at == RenameMove(from, to)
      modifies this, ag, jj, store, cache
      ensures Continues() && at == Stop(st)
    {
      hide Running;
      var b := Call(RenameRow(from, to, Naming(to)));
      if b.Conflict? {
        return Ok;
      }
      if !b.Done? {
        return Fail(502);
      }
      var _ := Call(CacheEvict(Naming(from)));
      st := DeleteBookmark(from, Finish);
    }

    method EnsureDeleted(t: Triple, sid: string) returns (st: Status)
      requires Running() && at == DeletedLookup(t, sid)
      modifies this, ag, jj, store, cache
      ensures Continues() && at == Stop(st)
    {
      hide Running;
      var a := Call(GetRowBySession(sid));
      if !a.Found? {
        return Fail(502);
      }
      if a.row.None? {
        return Ok;
      }
      st := RemoveWorkspace(t, sid);
    }

    /** The bookmark first, then the row, then the cache entry. */
    method RemoveWorkspace(t: Triple, sid: string) returns (st: Status)
      requires Running() && at == TreeList(Drop(t, Unmap(sid)))
      modifies this, ag, jj, store, cache
      ensures Continues() && at == Stop(st)
    {
      hide Running;
      st := DeleteBookmark(t, Unmap(sid));
      if st.Fail? {
        return;
      }
      var b := Call(DeleteRow(t));
      if !b.Done? {
        return Fail(502);
      }
      var _ := Call(CacheEvict(sid));
    }

    /** One lifecycle event. Whichever calls fail, a definite answer is the one Verdict tells from the state before; a
        success has done what the event asks for, and a permanent error has changed nothing. A run in which no call
        fails leaves the stores and the answer Handle describes. After a success other than of a delete, the session's
        variables are published, for which it is resolved: that changes nothing but the cache. */
    method HandleLifecycleEvent(e: Event) returns (st: Status, ghost evs: seq<Ev>, ghost handled: World)
      modifies this, ag, jj, store, cache
      ensures Path(old(W()), OnEvent(e), evs, handled, Stop(st))
      ensures old(RowsNamed(W())) && (Definite(Status(st)) || FaultFree(evs)) ==> st == Verdict(old(W()), e)
      ensures old(RowsNamed(W())) && Definite(Status(st)) ==>
                if st.Ok? then EventDone(old(W()), e, handled) else handled == old(W())
      ensures FaultFree(evs) ==> handled == Handle(old(W()), e) && st == HandleStatus(old(W()), e)
      ensures W() == handled.(cache := W().cache)
      ensures if st.Ok? && !e.Deleted? then
                exists o :: Path(handled, ResolveHit(if e.Renamed? then e.to else e.sid), log, W(), End(o))
              else W() == handled
    {
      hide Verdict, EventDone, RowsNamed, OnEvent, Handle, HandleStatus;
      Begin(OnEvent(e));
      st := Dispatch(e);
      evs, handled := log, W();
      if FaultFree(log) {
        EventFinishes(began, e, W(), Status(st));
        if RowsNamed(began) { VerdictHolds(began, e); }
      }
      if RowsNamed(began) && Definite(Status(st)) { AnswerIsVerdict(began, e, log, W(), st); }
      if st.Ok? && !e.Deleted? {
        var sid := if e.Renamed? then e.to else e.sid;
        var r := ResolveSession(sid);
        ResolvingKeeps(handled, ResolveHit(sid), log, W(), End(r));
      }
    }

    method Dispatch(e: Event) returns (st: Status)
      requires Running() && at == OnEvent(e)
      modifies this, ag, jj, store, cache
      ensures Continues() && at == Stop(st)
    {
      hide Running;
      match e {
        case Created(sid) =>
          var t := Parse(sid);
          if t.None? {
            return Fail(400);
          }
          st := EnsureCreated(t.value, sid, Return);
        case Forked(sid, parent) =>
          var t := Parse(sid);
          if t.None? {
            return Fail(400);
          }
          st := EnsureForked(t.value, sid, parent);
        case Renamed(from, to) =>
          var f, t := Parse(from), Parse(to);
          if f.None? || t.None? || f.value.key != t.value.key {
            return Fail(400);
          }
          st := EnsureRenamed(f.value, t.value);
        case Deleted(sid) =>
          var t := Parse(sid);
          if t.None? {
            return Fail(400);
          }
          st := EnsureDeleted(t.value, sid);
      }
    }

    // ---- sessions_http.go ----

    /** From the cache if there, else from the table, and then kept in the cache. In a named state a successful
        answer is a triple whose name is the session's, and a definite one is told from the cache and the table. */
    method ResolveSession(sid: string) returns (r: Outcome)
      modifies this, ag, jj, store, cache
      ensures Path(old(W()), ResolveHit(sid), log, W(), End(r))
      ensures old(RowsNamed(W())) && (Definite(r) || FaultFree(log)) ==> ResolvedAs(old(W()), sid, W(), r)
      ensures old(GoodWorld(W())) && r.Resolved? ==> r.sid == sid == Naming(r.t)
    {
      Begin(ResolveHit(sid));
      ghost var w0 := W();
      var hit := Call(CacheGet(sid));
      if hit.Hit? && hit.t.Some? {
        r := Resolved(sid, hit.t.value);
      } else {
        r := ResolveFromTable(sid);
      }
      if GoodWorld(w0) {
        ProperPath(w0, ResolveHit(sid), log, W(), at);
      }
      if RowsNamed(w0) && (Definite(r) || FaultFree(log)) {
        ResolutionAnswers(w0, sid, log, W(), r);
      }
    }

    method ResolveFromTable(sid: string) returns (r: Outcome)
      requires Running() && at == ResolveRow(sid)
      modifies this, ag, jj, store, cache
      ensures Continues() && at == End(r) && (r.Resolved? ==> r.sid == sid)
    {
      hide Running;
      var a := Call(GetRowBySession(sid));
      if !a.Found? {
        return Status(Fail(502));
      }
      if a.row.None? {
        return Status(Fail(if Parse(sid).None? then 400 else 404));
      }
      var _ := Call(CachePut(sid, a.row.value.t));
      r := Resolved(sid, a.row.value.t);
    }

    /** Binds an existing bookmark to its derived session. In a named state success means the row is there; without
        failing calls the answer and the stores are told from the state before, and a definite answer differs from that
        only where an existing bookmark is not found. */
    method AdoptBookmark(t: Triple) returns (r: Outcome)
      modifies this, ag, jj, store, cache
      ensures Path(old(W()), AdoptGet(t), log, W(), End(r))
      ensures old(RowsNamed(W())) && r.Adopted? ==> r.sid == Naming(t) && t in W().rows && W().rows[t] == Naming(t)
      ensures old(Sound(W())) && (FaultFree(log) || (Definite(r) && r != Status(Fail(404)))) ==>
                AdoptedAs(old(W()), t, W(), r)
      ensures old(Sound(W())) && r == Status(Fail(404)) ==> t !in old(W()).rows && W() == old(W())
    {
      hide AdoptedAs, Sound, RowsNamed;
      Begin(AdoptGet(t));
      r := AdoptOrphan(t);
      if RowsNamed(began) && r.Adopted? { AdoptionBinds(began, t, log, W(), r); }
      if Sound(began) { Adoptions(began, t, log, W(), r); }
    }

    method AdoptOrphan(t: Triple) returns (r: Outcome)
      requires Running() && at == AdoptGet(t)
      modifies this, ag, jj, store, cache
      ensures Continues() && at == End(r)
    {
      hide Running;
      var a := Call(GetRow(t));
      if !a.Found? {
        return Status(Fail(502));
      }
      if a.row.Some? {
        return Adopted(a.row.value.sid, false);
      }
      var tree := GetRepoTree(Adopt(t));
      if tree.None? {
        return Status(Fail(502));
      }
      if !Shows(tree.value, t) {
        return Status(Fail(404));
      }
      r := BindOrphan(t);
    }

    /** The session first, then the row; the repository is not marked managed. */
    method BindOrphan(t: Triple) returns (r: Outcome)
      requires Running() && at == AdoptSession(t)
      modifies this, ag, jj, store, cache
      ensures Continues() && at == End(r)
    {
      hide Running;
      var b := Call(EnsureSession(Naming(t)));
      if !b.Done? {
        return Status(Fail(502));
      }
      var c := Call(InsertRow(t, Naming(t)));
      r := if c.Done? then Adopted(Naming(t), true) else if c.Conflict? then Status(Fail(409)) else Status(Fail(502));
    }

    // ---- worksheets.go ----

    /** The decision on a worksheet. Anything but an approved decision on a known action with an id changes
        nothing, and neither does one on a worksheet claimed before. For the others the calls made are a run of
        the model, with the claim recorded before anything is done; a failed execution keeps it, and is answered
        as an internal error whatever its status. */
    method OnCallHook(hook: string, sessionName: string, c: Decision) returns (r: Reply, ghost st: Status)
      modifies this, ag, jj, store, cache
      ensures r == NoHook <==> hook != "worksheet-decided"
      ensures r == Invalid <==>
                hook == "worksheet-decided"
                && (c.worksheetId == "" || (c.action != "fork-bookmark" && c.action != "delete-bookmark"))
      ensures r == NoHook || r == Invalid || c.decision != "approve" || c.worksheetId in old(W()).claimed ==>
                W() == old(W())
      ensures r == Accepted || r == Internal ==>
                var session := if c.session == "" then sessionName else c.session;
                var fork, drop := ForkJob(session, c.bookmark, c.quest, c.baseRev),
                                  DropJob(session, c.bookmark, c.target);
                && (r == Accepted <==> st == Ok)
                && (c.decision != "approve" ==> r == Accepted)
                && (c.action == "fork-bookmark" ==> Answered(old(W()), c, fork, st))
                && (c.action == "delete-bookmark" ==> Answered(old(W()), c, drop, st))
    {
      hide Decided, Exec;
      st := Ok;
      if hook != "worksheet-decided" {
        return NoHook, st;
      }
      if c.worksheetId == "" {
        return Invalid, st;
      }
      var job := JobOf(c, sessionName);
      if job.None? {
        return Invalid, st;
      }
      var approved := c.decision == "approve";
      Begin(OnDecision(c.worksheetId, approved, job.value));
      var done := Decide(c.worksheetId, approved, job.value);
      if !approved || c.worksheetId in began.claimed {
        NothingToExecute(began, c.worksheetId, approved, job.value, log, W(), Status(done));
      } else if Sound(began) {
        FirstDecision(began, c.worksheetId, job.value, log, W(), done);
      }
      r, st := if done.Ok? then Accepted else Internal, done;
    }

    method Decide(id: string, approved: bool, job: Job) returns (st: Status)
      requires Running() && at == OnDecision(id, approved, job)
      modifies this, ag, jj, store, cache
      ensures Continues() && at == Stop(st)
    {
      hide Running, Exec;
      if id == "" {
        return Fail(400);
      }
      if !approved {
        return Ok;
      }
      var first := Call(Claim(id));
      if !first.First? {
        return Fail(500);
      }
      if !first.yes {
        return Ok;
      }
      var _ := Call(StartExec(id));
      if job.ForkJob? {
        st := ExecForkRequest(job);
      } else {
        st := ExecDeleteBookmark(job);
      }
    }

    method ExecForkRequest(job: Job) returns (st: Status)
      requires Running() && at == Exec(job) && job.ForkJob?
      modifies this, ag, jj, store, cache
      ensures Continues() && at == Stop(st)
    {
      hide Running;
      var own := Parse(job.session);
      if own.None? || job.bookmark == "" || job.quest == "" {
        return Fail(400);
      }
      var t := Triple(own.value.key, job.bookmark);
      st := EnsureForkedAt(t, Naming(t), if job.baseRev == "" then Tip(own.value.bm) else At(job.baseRev), job.session);
      if st.Fail? {
        return;
      }
      var a := Call(ForkSession(job.session, Naming(t)));
      st := if a.Done? then Ok else Fail(502);
    }

    method EnsureForkedAt(t: Triple, sid: string, anchor: Rev, ghost parent: string) returns (st: Status)
      requires Running() && at == ForkAtLookup(t, sid, anchor, parent)
      modifies this, ag, jj, store, cache
      ensures Continues() && at == Resume(AgentFork(parent, sid), st)
    {
      hide Running;
      var a := Call(GetRowBySession(sid));
      if !a.Found? {
        return Fail(502);
      }
      if a.row.Some? {
        return Ok;
      }
      st := AnchorFork(t, sid, anchor, parent);
    }

    method AnchorFork(t: Triple, sid: string, anchor: Rev, ghost parent: string) returns (st: Status)
      requires Running() && at == ForkAtRepo(t, sid, anchor, parent)
      modifies this, ag, jj, store, cache
      ensures Continues() && at == Resume(AgentFork(parent, sid), st)
    {
      hide Running, Exec, OnEvent;
      var b := Call(PostRepo(t.key));
      if !b.Done? {
        return Fail(502);
      }
      st := EnsureBookmark(t, anchor, Bind(sid, AgentFork(parent, sid)));
      if st.Ok? {
        st := BindRow(t, sid, AgentFork(parent, sid));
      }
    }

    method ExecDeleteBookmark(job: Job) returns (st: Status)
      requires Running() && at == Exec(job) && job.DropJob?
      modifies this, ag, jj, store, cache
      ensures Continues() && at == Stop(st)
    {
      hide Running;
      var own := Parse(job.session);
      if own.None? || job.bookmark == "" || job.bookmark == own.value.bm || job.bookmark == MAIN {
        return Fail(400);
      }
      var t := Triple(own.value.key, job.bookmark);
      var target := if job.target == "" then Naming(t) else job.target;
      var a := Call(DeleteSession(target));
      if !a.Done? {
        return Fail(502);
      }
      var b := Call(GetRowBySession(target));
      if !b.Found? {
        return Fail(502);
      }
      if b.row.None? {
        st := DeleteBookmark(t, Finish);
        return;
      }
      var u := Parse(target);
      if u.None? {
        return Fail(400);
      }
      st := EnsureDeleted(u.value, target);
    }

    // ---- reconcile.go ----

    /** One pass. If no call fails it succeeds exactly if everything missing can be anchored. If it succeeds, whichever
        calls failed, every live derived session has a row and no repository managed at the start has a bad one. */
    method ReconcileOnce() returns (st: Status)
      modifies this, ag, jj, store, cache
      ensures Path(old(W()), PassSessions, log, W(), Stop(st))
      ensures FaultFree(log) && RowsNamed(old(W())) ==> (st.Ok? <==> AllAnchorable(old(W()), Missing(old(W()))))
      ensures RowsNamed(old(W())) && Definite(Status(st)) ==>
                st == Ok && AllMapped(W()) && BadRows(W(), old(W()).managed) == {}
    {
      hide Missing, AllAnchorable, AllMapped, BadRows, RowsNamed;
      Begin(PassSessions);
      st := Pass();
      if FaultFree(log) && RowsNamed(began) {
        assert Finishes(began, PassSessions, W(), Status(st));
        OnePass(began, W(), Status(st));
      }
      if RowsNamed(began) && Definite(Status(st)) { PassSuccessHeals(began, log, W(), st); }
    }

    method Pass() returns (st: Status)
      requires Running() && at == PassSessions
      modifies this, ag, jj, store, cache
      ensures Continues() && at == Stop(st)
    {
      hide Running;
      var a := Call(ListSessions);
      if !a.Sids? {
        return Fail(502);
      }
      st := ConvergeDrift(a.sids);
      if st.Ok? {
        st := BackfillWorkspaces(a.sids);
      }
    }

    method ConvergeDrift(live: set<string>) returns (st: Status)
      requires Running() && at == PassManaged(live)
      modifies this, ag, jj, store, cache
      ensures Continues() && at == if st.Ok? then PassRows(live) else Stop(st)
    {
      hide Running;
      var a := Call(ListManaged);
      if !a.Repos? {
        return Fail(502);
      }
      var managed := a.keys;
      if managed == [] {
        return Ok;
      }
      var tree := GetRepoTree(Drift(managed, live));
      if tree.None? {
        return Fail(502);
      }
      var j := 0;
      while j < |managed|
        invariant 0 <= j <= |managed|
        invariant Continues() && at == DriftRepo(managed[j..], tree.value, live)
      {
        assert managed[j..][1..] == managed[j + 1..];
        st := ConvergeRepo(managed[j], managed[j + 1..], tree.value, live);
        if st.Fail? {
          return;
        }
        j := j + 1;
      }
      st := Ok;
    }

    /** Unmaps the rows of one repository whose bookmark or session is gone. */
    method ConvergeRepo(m: Key, ghost ms: seq<Key>, tree: Tree, live: set<string>) returns (st: Status)
      requires Running() && at == DriftList(m, ms, tree, live)
      modifies this, ag, jj, store, cache
      ensures Continues() && at == if st.Ok? then DriftRepo(ms, tree, live) else Stop(st)
    {
      hide Running, DriftRows;
      var a := Call(ListRowsForRepo(m));
      if !a.Rows? {
        return Fail(502);
      }
      var bms := if m in tree then tree[m] else {};
      var i := 0;
      assert a.rows[0..] == a.rows;
      while i < |a.rows|
        invariant 0 <= i <= |a.rows|
        invariant Continues() && at == DriftRows(a.rows[i..], m, ms, tree, live)
      {
        var row := a.rows[i];
        NextRow(a.rows, i, m, ms, tree, live);
        if row.t.bm !in bms || row.sid !in live {
          st := UnmapBadRow(row, a.rows[i + 1..], m, ms, tree, live);
          if st.Fail? {
            return;
          }
        }
        i := i + 1;
      }
      NoMoreRows(a.rows, m, ms, tree, live);
      st := Ok;
    }

    method UnmapBadRow(row: Row, ghost rest: seq<Row>, ghost m: Key, ghost ms: seq<Key>, ghost tree: Tree,
                       ghost live: set<string>)
        returns (st: Status)
      requires Running() && at == DriftDelete(row, rest, m, ms, tree, live)
      modifies this, ag, jj, store, cache
      ensures Continues() && at == if st.Ok? then DriftRows(rest, m, ms, tree, live) else Stop(st)
    {
      hide Running, DriftRows;
      var b := Call(DeleteRow(row.t));
      if !b.Done? {
        return Fail(502);
      }
      var _ := Call(CacheEvict(row.sid));
      st := Ok;
    }

    /** Gives every derived session without a row its workspace; a permanent failure skips the session. */
    method BackfillWorkspaces(live: set<string>) returns (st: Status)
      requires Running() && at == PassRows(live)
      modifies this, ag, jj, store, cache
      ensures Continues() && at == Stop(st)
    {
      hide Running, Backfill;
      var a := Call(ListRows);
      if !a.Rows? {
        return Fail(502);
      }
      var mapped := set r | r in a.rows :: r.sid;
      st := BackfillMissing(live, mapped);
    }

    /** The sessions in some order. */
    method BackfillMissing(live: set<string>, mapped: set<string>) returns (st: Status)
      requires Running() && at == PassOrder(live, mapped)
      modifies this, ag, jj, store, cache
      ensures Continues() && at == Stop(st)
    {
      hide Running, Backfill;
      var order := Call(Shuffle(live));
      if !order.Order? {
        return Fail(502);
      }
      var names := order.names;
      var i := 0;
      assert names[0..] == names;
      while i < |names|
        invariant 0 <= i <= |names|
        invariant Continues() && at == Backfill(names[i..], mapped)
      {
        var t := Parse(names[i]);
        NextName(names, i, mapped);
        if names[i] !in mapped && t.Some? {
          st := EnsureCreated(t.value, names[i], NextSession(names[i + 1..], mapped));
          if st.Fail? && st.code >= 500 {
            return;
          }
        }
        i := i + 1;
      }
      NoMoreNames(names, mapped);
      st := Ok;
    }
  }
}
