/** The cache and the table, with handlers one at a time: between handlers a cache entry has its row in the
    table, except exactly when that row was removed by a call whose answer got lost
    (sessions_http.go, events_sub.go, reconcile.go). */
module Coherence {
  import opened Names
  import opened Stores
  import opened Handlers
  import opened Interleaving
  import opened Isolation
  import opened NamingInvariant
  import opened Sequential

  predicate Backed(w: World, sid: string, t: Triple) {
    t in w.rows && w.rows[t] == sid
  }

  /** The session whose cache entry the handler is about to evict. */
  predicate Evicting(pc: Pc, sid: string) {
    match pc
    case DriftEvict(row, _, _, _, _, _) => sid == row.sid
    case UnmapEvict(s) => sid == s
    case RenameEvict(from) => sid == Naming(from)
    case _ => false
  }

  ghost predicate EvictedSoon(s: Sys, sid: string) {
    exists i :: i in s.procs && Evicting(s.procs[i], sid)
  }

  /** The handler is right about the rows it goes by. */
  predicate Informed(w: World, pc: Pc) {
    match pc
    case ResolvePut(sid, t) => Backed(w, sid, t)
    case UnmapRow(t, sid) => sid == Naming(t)
    case DropCall(t, after) => after.Unmap? ==> after.sid == Naming(t)
    case TreeList(use) => use.Drop? && use.after.Unmap? ==> use.after.sid == Naming(use.t)
    case TreeScan(use, _, _, _) => use.Drop? && use.after.Unmap? ==> use.after.sid == Naming(use.t)
    case DeletedLookup(t, sid) => sid == Naming(t)
    case DriftDelete(row, rows, _, _, _, _) =>
      row.sid == Naming(row.t) && forall r :: r in rows ==> r.sid == Naming(r.t)
    case DriftEvict(row, rows, _, _, _, _) => forall r :: r in rows ==> r.sid == Naming(r.t)
    case _ => true
  }

  ghost predicate AllInformed(s: Sys) {
    forall i :: i in s.procs ==> Informed(s.w, s.procs[i])
  }

  /** Every entry has its row, or a handler is about to evict it. */
  ghost predicate Coherent(s: Sys) {
    AllInformed(s) && forall sid :: sid in s.w.cache ==> Backed(s.w, sid, s.w.cache[sid].t) || EvictedSoon(s, sid)
  }

  predicate Removes(q: Req, t: Triple) {
    q == DeleteRow(t) || (q.RenameRow? && q.from == t)
  }

  /** A row removal that took effect although its caller saw it fail. */
  predicate LostRemoval(q: Req, e: Ev, t: Triple) {
    Removes(q, t) && e.resp.Failed? && e.took
  }

  predicate Caches(w: World, sid: string, t: Triple) {
    sid in w.cache && w.cache[sid].t == t
  }

  /** The entry is there and its row is not. */
  predicate Stale(w: World, sid: string, t: Triple) {
    Caches(w, sid, t) && !Backed(w, sid, t)
  }

  /** The call's removal of the cached row gets no answer. */
  predicate LosesRow(s: Sys, act: Act, sid: string, t: Triple) {
    && act.Call? && act.i in s.procs && !s.procs[act.i].End?
    && LostRemoval(Request(s.procs[act.i]), act.e, t) && Caches(s.w, sid, t) && Backed(s.w, sid, t)
  }

  /** And the row is really gone: a rename whose target has a row moves none. */
  predicate LeavesStale(s: Sys, act: Act, sid: string, t: Triple) {
    LosesRow(s, act, sid, t) && (var q := Request(s.procs[act.i]); q.RenameRow? ==> q.to !in s.w.rows)
  }

  /** The call writes or evicts the entry, or binds the row again. */
  predicate MendsEntry(w: World, q: Req, sid: string, t: Triple) {
    || (q.CachePut? && q.sid == sid) || q == CacheEvict(sid)
    || (q == InsertRow(t, sid) && !Taken(w.rows, t, sid))
    || (q.RenameRow? && q.to == t && q.sid == sid && q.from in w.rows && !Taken(w.rows - {q.from}, t, sid))
  }

  /** The entry goes or its row comes back, by a handler's call or with the process. */
  predicate Refreshes(s: Sys, act: Act, sid: string, t: Triple) {
    match act
    case Call(i, e) => i in s.procs && !s.procs[i].End? && e.took && MendsEntry(s.w, Request(s.procs[i]), sid, t)
    case Crash => true
    case _ => false
  }

  /** Step k lost the row of the entry, and nothing has mended that before state n. */
  ghost predicate LostAt(b: seq<Sys>, acts: seq<Act>, k: nat, n: nat, sid: string, t: Triple) {
    k < n <= |acts| < |b| && LeavesStale(b[k], acts[k], sid, t)
    && forall j :: k < j < n ==> !Refreshes(b[j], acts[j], sid, t)
  }

  ghost predicate LostBefore(b: seq<Sys>, acts: seq<Act>, n: nat, sid: string, t: Triple) {
    exists k: nat :: LostAt(b, acts, k, n, sid, t)
  }

  lemma InformedResume(w: World, k: Kont, st: Status)
    ensures Informed(w, Resume(k, st))
  {
    if k.NextSession? { InformedBackfill(w, k.rest, k.mapped); }
  }

  lemma {:induction false} InformedBackfill(w: World, rest: seq<string>, mapped: set<string>)
    ensures Informed(w, Backfill(rest, mapped))
  {
    if rest != [] { InformedBackfill(w, rest[1..], mapped); }
  }

  lemma {:induction false} InformedDrift(w: World, rows: seq<Row>, m: Key, ms: seq<Key>, tree: Tree, live: set<string>)
    requires forall r :: r in rows ==> r.sid == Naming(r.t)
    ensures Informed(w, DriftRows(rows, m, ms, tree, live))
  {
    if rows != [] { InformedDrift(w, rows[1..], m, ms, tree, live); }
  }

  lemma InformedFeed(w: World, pc: Pc, e: Ev)
    requires GoodWorld(w) && Proper(pc) && !pc.End? && Informed(w, pc) && Legal(w, Request(pc), e)
    ensures Informed(After(w, Request(pc), e), Feed(pc, e.resp))
  {
    if InEnsure(pc) { InformedEnsure(w, pc, e); }
    else if InPass(pc) { InformedPass(w, pc, e); }
    else if InWorksheet(pc) { InformedWorksheet(w, pc, e); }
    else { InformedHandler(w, pc, e); }
  }

  lemma InformedEnsure(w: World, pc: Pc, e: Ev)
    requires InEnsure(pc) && Informed(w, pc)
    ensures Informed(After(w, Request(pc), e), Feed(pc, e.resp))
  {
    forall w', k, st ensures Informed(w', Resume(k, st)) { InformedResume(w', k, st); }
  }

  lemma InformedPass(w: World, pc: Pc, e: Ev)
    requires GoodWorld(w) && InPass(pc) && Informed(w, pc) && Legal(w, Request(pc), e)
    ensures Informed(After(w, Request(pc), e), Feed(pc, e.resp))
  {
    var a, w' := e.resp, After(w, Request(pc), e);
    if pc.DriftEvict? { InformedDrift(w', pc.rows, pc.m, pc.ms, pc.tree, pc.live); }
    else if pc.DriftList? { if a.Rows? { InformedDrift(w', a.rows, pc.m, pc.ms, pc.tree, pc.live); } }
    else if pc.PassOrder? { if a.Order? { InformedBackfill(w', a.names, pc.mapped); } }
  }

  lemma InformedWorksheet(w: World, pc: Pc, e: Ev)
    requires InWorksheet(pc)
    ensures Informed(After(w, Request(pc), e), Feed(pc, e.resp))
  {
    if pc.WithdrawLookup? { ParsedDerived(pc.target); }
  }

  lemma InformedHandler(w: World, pc: Pc, e: Ev)
    requires GoodWorld(w) && InHandler(pc) && Informed(w, pc) && Legal(w, Request(pc), e)
    ensures Informed(After(w, Request(pc), e), Feed(pc, e.resp))
  {
  }

  lemma InformedStart(w: World, pc: Pc)
    requires Starts(pc)
    ensures Informed(w, pc)
  {
    if e: Event :| pc == OnEvent(e) { ParsedDerived(if e.Renamed? then e.from else e.sid); }
  }

  // ---- one step ----

  /** A named removal, when it takes effect, leaves the row bound only if it is a rename to a bound target. */
  lemma RemovalEffect(w: World, q: Req, e: Ev, sid: string, t: Triple)
    requires RowsNamed(w) && NamedWrite(q) && Removes(q, t) && Backed(w, sid, t) && e.took
    ensures Backed(After(w, q, e), sid, t) <==> q.RenameRow? && q.to in w.rows
  {
    if q.RenameRow? { ConflictMeansBound(w, q.to, t); }
  }

  /** What one call does to an entry and its row, apart from a removal and what mends. */
  lemma EntryAfter(w: World, q: Req, e: Ev, sid: string, t: Triple)
    requires !(e.took && MendsEntry(w, q, sid, t))
    ensures Caches(After(w, q, e), sid, t) <==> Caches(w, sid, t)
    ensures Backed(After(w, q, e), sid, t) ==> Backed(w, sid, t)
    ensures Backed(w, sid, t) && !Backed(After(w, q, e), sid, t) ==> Removes(q, t) && e.took
  {
  }

  /** A call that mends leaves no stale entry, provided only rows that are there are cached. */
  lemma MendedAfter(w: World, q: Req, e: Ev, sid: string, t: Triple)
    requires e.took && MendsEntry(w, q, sid, t) && (q.CachePut? ==> Backed(w, q.sid, q.t))
    ensures !Stale(After(w, q, e), sid, t)
  {
  }

  lemma NamedRequest(pc: Pc)
    requires !pc.End? && Proper(pc)
    ensures NamedWrite(Request(pc))
  {
    hide Exec, Naming, Parse;
  }

  /** After removing a row, the handler goes on to evict its session. */
  lemma RemovalEvicts(w: World, pc: Pc, e: Ev, sid: string, t: Triple)
    requires !pc.End? && Informed(w, pc) && sid == Naming(t) && Removes(Request(pc), t) && e.resp == Done
    ensures Evicting(Feed(pc, e.resp), sid)
  {
  }

  lemma RemovalSchedules(s: Sys, i: nat, e: Ev, s': Sys, sid: string, t: Triple)
    requires Next(s, Call(i, e), s') && Informed(s.w, s.procs[i])
    requires sid == Naming(t) && Removes(Request(s.procs[i]), t) && e.resp == Done
    ensures EvictedSoon(s', sid)
  {
    RemovalEvicts(s.w, s.procs[i], e, sid, t);
    assert Evicting(s'.procs[i], sid);
  }

  /** Only the handler's own call ends an eviction under way, and a crash, with all entries. */
  lemma EvictionStays(s: Sys, act: Act, s': Sys, sid: string)
    requires Next(s, act, s') && !act.Call? && !act.Crash? && EvictedSoon(s, sid)
    ensures EvictedSoon(s', sid)
  {
    var i :| i in s.procs && Evicting(s.procs[i], sid);
    assert i in s'.procs && s'.procs[i] == s.procs[i];
  }

  lemma OneEviction(s: Sys, i: nat, sid: string)
    requires OneLive(s) && i in s.procs && !s.procs[i].End? && EvictedSoon(s, sid)
    ensures Request(s.procs[i]) == CacheEvict(sid)
  {
    var j :| j in s.procs && Evicting(s.procs[j], sid);
    assert j == i;
  }

  lemma InformedNext(s: Sys, act: Act, s': Sys)
    requires Good(s) && AllInformed(s) && OneLive(s) && Next(s, act, s')
    ensures AllInformed(s')
  {
    forall i | i in s'.procs ensures Informed(s'.w, s'.procs[i]) {
      if act.Spawn? && act.i == i { InformedStart(s'.w, act.pc); }
      else if act.Call? && act.i == i { InformedFeed(s.w, s.procs[i], act.e); }
    }
  }

  lemma {:induction false} InformedHolds(b: seq<Sys>, acts: seq<Act>, n: nat)
    requires Behavior(b, acts) && Good(b[0]) && AllInformed(b[0]) && n < |b|
    requires forall k :: 0 <= k < n ==> OneLive(b[k])
    ensures AllInformed(b[n])
  {
    if n > 0 {
      InformedHolds(b, acts, n - 1);
      NamingHolds(b, acts, n - 1);
      assert Next(b[n - 1], acts[n - 1], b[n - 1 + 1]);
      InformedNext(b[n - 1], acts[n - 1], b[n]);
    }
  }

  /** A removal that is neither failed nor without effect is answered. */
  lemma RemovalAnswered(w: World, q: Req, e: Ev, sid: string, t: Triple)
    requires Legal(w, q, e) && Removes(q, t) && Backed(w, sid, t) && !Backed(After(w, q, e), sid, t)
    ensures e.took && (e.resp == Done || e.resp == Failed)
  {
  }

  /** One call: an entry nobody is about to evict is stale afterwards only if it was before and has not been
      mended, or if the call lost its row. */
  lemma StaleCall(s: Sys, i: nat, e: Ev, s': Sys, sid: string, t: Triple)
    requires Good(s) && AllInformed(s) && OneLive(s) && Next(s, Call(i, e), s')
    requires Stale(s'.w, sid, t) && !EvictedSoon(s', sid)
    ensures LeavesStale(s, Call(i, e), sid, t)
            || (Stale(s.w, sid, t) && !EvictedSoon(s, sid) && !Refreshes(s, Call(i, e), sid, t))
  {
    hide Informed, Proper, NamedWrite, GoodWorld, Legal, Effect, Feed;
    var pc, q := s.procs[i], Request(s.procs[i]);
    assert Informed(s.w, pc) && Proper(pc) && GoodWorld(s.w);
    PutsBacked(s.w, pc);
    if e.took && MendsEntry(s.w, q, sid, t) {
      MendedAfter(s.w, q, e, sid, t);
    } else {
      EntryAfter(s.w, q, e, sid, t);
      if EvictedSoon(s, sid) { EvictingCall(s, i, e, s', sid); }
      if Backed(s.w, sid, t) { LosingCall(s, i, e, s', sid, t); }
    }
  }

  lemma PutsBacked(w: World, pc: Pc)
    requires !pc.End? && Informed(w, pc)
    ensures var q := Request(pc); q.CachePut? ==> Backed(w, q.sid, q.t)
  {
    if Request(pc).CachePut? { OnlyResolvePuts(pc); }
  }

  lemma EvictingCall(s: Sys, i: nat, e: Ev, s': Sys, sid: string)
    requires OneLive(s) && Next(s, Call(i, e), s') && EvictedSoon(s, sid)
    ensures sid !in s'.w.cache
  {
    OneEviction(s, i, sid);
  }

  lemma LosingCall(s: Sys, i: nat, e: Ev, s': Sys, sid: string, t: Triple)
    requires Good(s) && AllInformed(s) && Next(s, Call(i, e), s')
    requires Caches(s.w, sid, t) && Backed(s.w, sid, t) && !Backed(s'.w, sid, t) && !EvictedSoon(s', sid)
    requires Removes(Request(s.procs[i]), t) && e.took
    ensures LeavesStale(s, Call(i, e), sid, t)
  {
    hide Informed, Proper, Effect, Feed;
    var pc, q := s.procs[i], Request(s.procs[i]);
    assert Informed(s.w, pc) && Proper(pc);
    NamedRequest(pc);
    RemovalEffect(s.w, q, e, sid, t);
    RemovalAnswered(s.w, q, e, sid, t);
    if e.resp == Done { RemovalSchedules(s, i, e, s', sid, t); }
  }

  /** The same for any step. */
  lemma StaleNext(s: Sys, act: Act, s': Sys, sid: string, t: Triple)
    requires Good(s) && AllInformed(s) && OneLive(s) && Next(s, act, s')
    requires Stale(s'.w, sid, t) && !EvictedSoon(s', sid)
    ensures LeavesStale(s, act, sid, t)
            || (Stale(s.w, sid, t) && !EvictedSoon(s, sid) && !Refreshes(s, act, sid, t))
  {
    if act.Call? { StaleCall(s, act.i, act.e, s', sid, t); }
    else if EvictedSoon(s, sid) { EvictionStays(s, act, s', sid); }
  }

  /** A lost row leaves the entry stale, and so it stays until something mends it. */
  lemma StaleStays(s: Sys, act: Act, s': Sys, sid: string, t: Triple)
    requires Good(s) && Next(s, act, s')
    requires LeavesStale(s, act, sid, t) || (Stale(s.w, sid, t) && !Refreshes(s, act, sid, t))
    ensures Stale(s'.w, sid, t)
  {
    hide Proper, NamedWrite, Legal, Effect, Feed;
    if LeavesStale(s, act, sid, t) {
      var q := Request(s.procs[act.i]);
      assert Proper(s.procs[act.i]);
      NamedRequest(s.procs[act.i]);
      RemovalEffect(s.w, q, act.e, sid, t);
      RemovalKeepsCache(s.w, q, act.e, t);
    } else if act.Call? {
      EntryAfter(s.w, Request(s.procs[act.i]), act.e, sid, t);
    }
  }

  lemma RemovalKeepsCache(w: World, q: Req, e: Ev, t: Triple)
    requires Removes(q, t)
    ensures After(w, q, e).cache == w.cache
  {
  }

  // ---- runs ----

  lemma LostNext(b: seq<Sys>, acts: seq<Act>, n: nat, sid: string, t: Triple)
    requires n < |acts| < |b|
    ensures LostBefore(b, acts, n + 1, sid, t) <==>
            LeavesStale(b[n], acts[n], sid, t) || (LostBefore(b, acts, n, sid, t) && !Refreshes(b[n], acts[n], sid, t))
  {
    hide LeavesStale, Refreshes;
    var m := n + 1;
    if k: nat :| LostAt(b, acts, k, m, sid, t) {
      if k < n { assert LostAt(b, acts, k, n, sid, t); }
    }
    if LeavesStale(b[n], acts[n], sid, t) {
      assert LostAt(b, acts, n, m, sid, t);
    } else if k: nat :| LostAt(b, acts, k, n, sid, t) {
      if !Refreshes(b[n], acts[n], sid, t) { assert LostAt(b, acts, k, m, sid, t); }
    }
  }

  /** Every stale entry is being evicted or was lost at some step. */
  lemma {:induction false} StaleWasLost(b: seq<Sys>, acts: seq<Act>, n: nat, sid: string, t: Triple)
    requires Behavior(b, acts) && Good(b[0]) && Coherent(b[0]) && n < |b|
    requires forall k :: 0 <= k <= n ==> OneLive(b[k])
    requires Stale(b[n].w, sid, t) && !EvictedSoon(b[n], sid)
    ensures LostBefore(b, acts, n, sid, t)
  {
    hide Next, Good, Informed, LeavesStale, Refreshes, EvictedSoon;
    if n > 0 {
      NamingHolds(b, acts, n - 1);
      InformedHolds(b, acts, n - 1);
      assert Next(b[n - 1], acts[n - 1], b[n - 1 + 1]);
      StaleNext(b[n - 1], acts[n - 1], b[n], sid, t);
      LostNext(b, acts, n - 1, sid, t);
      if !LeavesStale(b[n - 1], acts[n - 1], sid, t) { StaleWasLost(b, acts, n - 1, sid, t); }
    }
  }

  /** Every entry lost at some step and not mended is stale. */
  lemma {:induction false} LostIsStale(b: seq<Sys>, acts: seq<Act>, n: nat, sid: string, t: Triple)
    requires Behavior(b, acts) && Good(b[0]) && n < |b| && LostBefore(b, acts, n, sid, t)
    ensures Stale(b[n].w, sid, t)
  {
    hide Next, Good, LeavesStale, Refreshes, Stale;
    if n > 0 {
      NamingHolds(b, acts, n - 1);
      assert Next(b[n - 1], acts[n - 1], b[n - 1 + 1]);
      LostNext(b, acts, n - 1, sid, t);
      if !LeavesStale(b[n - 1], acts[n - 1], sid, t) { LostIsStale(b, acts, n - 1, sid, t); }
      StaleStays(b[n - 1], acts[n - 1], b[n], sid, t);
    }
  }

  /** Between handlers, a cache entry, expired or not, is without its row in the table if and only if some call
      removed that very row without its caller learning of it, and since then nothing has written or evicted the
      entry, bound the row again or crashed the process. */
  lemma CacheMatchesTable(b: seq<Sys>, acts: seq<Act>, n: nat, sid: string, t: Triple)
    requires Behavior(b, acts) && Good(b[0]) && Coherent(b[0]) && n < |b|
    requires forall k :: 0 <= k <= n ==> OneLive(b[k])
    requires forall i :: i in b[n].procs ==> b[n].procs[i].End?
    ensures Stale(b[n].w, sid, t) <==> LostBefore(b, acts, n, sid, t)
  {
    if LostBefore(b, acts, n, sid, t) {
      LostIsStale(b, acts, n, sid, t);
    } else if Stale(b[n].w, sid, t) {
      StaleWasLost(b, acts, n, sid, t);
    }
  }

  /** Whenever such a removal hits a cached row, the handler stops there and the entry is left behind, unless
      it is a rename whose target has a row, so that no row moves. */
  lemma LostRemovalLeavesEntry(b: seq<Sys>, acts: seq<Act>, k: nat, sid: string, t: Triple)
    requires Behavior(b, acts) && Good(b[0]) && k < |acts| && LosesRow(b[k], acts[k], sid, t)
    ensures Stale(b[k + 1].w, sid, t) <==> LeavesStale(b[k], acts[k], sid, t)
    ensures b[k + 1].procs[acts[k].i].End?
  {
    hide Proper, NamedWrite, Legal, Effect, Feed;
    NamingHolds(b, acts, k);
    assert Next(b[k], acts[k], b[k + 1]);
    var pc := b[k].procs[acts[k].i];
    assert Proper(pc);
    LostStops(pc, acts[k].e.resp, t);
    NamedRequest(pc);
    RemovalEffect(b[k].w, Request(pc), acts[k].e, sid, t);
    RemovalKeepsCache(b[k].w, Request(pc), acts[k].e, t);
  }

  lemma LostStops(pc: Pc, a: Resp, t: Triple)
    requires !pc.End? && Removes(Request(pc), t) && a == Failed
    ensures Feed(pc, a).End?
  {
    hide Exec, Naming, Parse;
  }
}
