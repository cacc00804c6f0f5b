/** Consequences of the naming invariant over every run: swallowed conflicts are sound, and a
    resolution, cached or not, answers with a triple of the session asked about that was really
    mapped, a cached one no longer than the cache lifetime ago. */
module Isolation {
  import opened Names
  import opened Stores
  import opened Handlers
  import opened Interleaving
  import opened NamingInvariant

  /** When bindRow turns a conflict into success, the exact row it wanted is in the table; and when
      that row is there, a conflict is what a working table answers. */
  lemma BindConflictIsSound(b: seq<Sys>, acts: seq<Act>, n: nat, i: nat)
    requires Behavior(b, acts) && Good(b[0]) && n < |b|
    requires i in b[n].procs && b[n].procs[i].BindInsert?
    ensures var w, pc := b[n].w, b[n].procs[i];
            && pc.sid == Naming(pc.t)
            && (Answers(w, InsertRow(pc.t, pc.sid), Conflict) <==> pc.t in w.rows && w.rows[pc.t] == pc.sid)
  {
    NamingHolds(b, acts, n);
    var w, pc := b[n].w, b[n].procs[i];
    assert Proper(pc);
    ConflictMeansBound(w, pc.t, pc.t);
  }

  /** An adoption swallows no conflict: when its insertion is answered, it reports a new row if and only if that very
      call has added it, and otherwise, where someone else was first, a 409. */
  lemma AdoptionRace(b: seq<Sys>, acts: seq<Act>, n: nat, i: nat)
    requires Behavior(b, acts) && Good(b[0]) && n < |acts| && acts[n].Call? && acts[n].i == i
    requires i in b[n].procs && b[n].procs[i].AdoptInsert?
    ensures i in b[n + 1].procs
    ensures var w, w', t, end := b[n].w, b[n + 1].w, b[n].procs[i].t, b[n + 1].procs[i];
            if acts[n].e.resp.Failed? then end == Error(502)
            else if t in w.rows then end == Error(409) && w' == w
            else end == End(Adopted(Naming(t), true)) && w'.rows == w.rows[t := Naming(t)]
  {
    hide Naming;
    NamingHolds(b, acts, n);
    assert Proper(b[n].procs[i]);
    ConflictMeansBound(b[n].w, b[n].procs[i].t, b[n].procs[i].t);
    assert Next(b[n], acts[n], b[n + 1]);
  }

  /** The same for ensureRenamed, as long as the row to move is still there. */
  lemma RenameConflictIsSound(b: seq<Sys>, acts: seq<Act>, n: nat, i: nat)
    requires Behavior(b, acts) && Good(b[0]) && n < |b|
    requires i in b[n].procs && b[n].procs[i].RenameMove?
    ensures var w, pc := b[n].w, b[n].procs[i];
            Answers(w, RenameRow(pc.from, pc.to, Naming(pc.to)), Conflict) <==>
            pc.from in w.rows && pc.from != pc.to && pc.to in w.rows && w.rows[pc.to] == Naming(pc.to)
  {
    NamingHolds(b, acts, n);
    var w, pc := b[n].w, b[n].procs[i];
    assert Proper(pc);
    RenameTaken(w, pc.from, pc.to);
  }

  lemma RenameTaken(w: World, from: Triple, to: Triple)
    requires RowsNamed(w) && Clean(from) && Clean(to)
    ensures Taken(w.rows - {from}, to, Naming(to)) <==> from != to && to in w.rows && w.rows[to] == Naming(to)
  {
    ConflictMeansBound(w, to, from);
    if from == to && Naming(to) in (w.rows - {from}).Values {
      var u :| u in w.rows - {from} && w.rows[u] == Naming(to);
      NamingInjective(u, to);
    }
  }

  /** The process starts with no handler running and an empty cache. */
  predicate Boot(s: Sys) {
    Good(s) && s.procs == map[] && s.w.cache == map[]
  }

  /** Some state up to the n-th has the row t of session sid in the table. */
  ghost predicate WasBound(b: seq<Sys>, n: nat, sid: string, t: Triple) {
    exists k :: 0 <= k <= n < |b| && t in b[k].w.rows && b[k].w.rows[t] == sid
  }

  /** A resolution that had read the row is about to put it in the cache, until exp. */
  ghost predicate Puts(b: seq<Sys>, n: nat, sid: string, t: Triple, exp: nat) {
    n < |b| && exp == b[n].w.now + TTL && WasBound(b, n, sid, t)
    && exists i :: i in b[n].procs && b[n].procs[i] == ResolvePut(sid, t)
  }

  ghost predicate TracedProc(b: seq<Sys>, n: nat, pc: Pc) {
    && (pc.ResolvePut? ==> WasBound(b, n, pc.sid, pc.t))
    && (pc.End? && pc.out.Resolved? ==> WasBound(b, n, pc.out.sid, pc.out.t))
  }

  ghost predicate TracedEntry(b: seq<Sys>, n: nat, sid: string, e: Entry)
    requires n < |b|
  {
    e.exp <= b[n].w.now + TTL && exists k :: 0 <= k < n && Puts(b, k, sid, e.t, e.exp)
  }

  ghost predicate Traced(b: seq<Sys>, n: nat)
    requires n < |b|
  {
    && (forall i :: i in b[n].procs ==> TracedProc(b, n, b[n].procs[i]))
    && (forall sid :: sid in b[n].w.cache ==> TracedEntry(b, n, sid, b[n].w.cache[sid]))
  }

  /** A call of a traced handler leaves a traced handler. */
  lemma TraceFeed(b: seq<Sys>, n: nat, pc: Pc, e: Ev)
    requires n + 1 < |b| && Traced(b, n) && TracedProc(b, n, pc)
    requires !pc.End? && Legal(b[n].w, Request(pc), e)
    ensures TracedProc(b, n + 1, Feed(pc, e.resp))
  {
    var next := Feed(pc, e.resp);
    if pc.ResolveHit? {
      if next.End? {
        var k :| 0 <= k < n && Puts(b, k, pc.sid, next.out.t, b[n].w.cache[pc.sid].exp);
      }
    } else if !pc.ResolveRow? && !pc.ResolvePut? {
      if !pc.WsClaim? { PlainFeed(pc, e.resp); }
    }
  }

  lemma CacheWrites(w: World, q: Req, e: Ev, sid: string)
    ensures var w' := After(w, q, e);
            && w'.now == w.now
            && (sid in w'.cache && !(sid in w.cache && w'.cache[sid] == w.cache[sid]) ==>
                q.CachePut? && q.sid == sid && w'.cache[sid] == Entry(q.t, w.now + TTL))
  {
  }

  lemma OnlyResolvePuts(pc: Pc)
    requires !pc.End? && Request(pc).CachePut?
    ensures pc == ResolvePut(Request(pc).sid, Request(pc).t)
  {
  }

  lemma TraceCache(b: seq<Sys>, acts: seq<Act>, n: nat, sid: string)
    requires Behavior(b, acts) && n + 1 < |b| && Traced(b, n)
    requires sid in b[n + 1].w.cache
    ensures TracedEntry(b, n + 1, sid, b[n + 1].w.cache[sid])
  {
    assert Next(b[n], acts[n], b[n + 1]);
    var e := b[n + 1].w.cache[sid];
    if sid in b[n].w.cache && b[n].w.cache[sid] == e {
      TimeMoves(b, acts, n);
    } else {
      var pc := b[n].procs[acts[n].i];
      CacheWrites(b[n].w, Request(pc), acts[n].e, sid);
      OnlyResolvePuts(pc);
      assert TracedProc(b, n, pc);
      assert Puts(b, n, sid, e.t, e.exp);
    }
  }

  lemma TimeMoves(b: seq<Sys>, acts: seq<Act>, n: nat)
    requires Behavior(b, acts) && n + 1 < |b|
    ensures b[n].w.now <= b[n + 1].w.now
  {
    assert Next(b[n], acts[n], b[n + 1]);
    if acts[n].Call? { CacheWrites(b[n].w, Request(b[n].procs[acts[n].i]), acts[n].e, ""); }
  }

  lemma TraceNext(b: seq<Sys>, acts: seq<Act>, n: nat)
    requires Behavior(b, acts) && n + 1 < |b| && Traced(b, n)
    ensures Traced(b, n + 1)
  {
    assert Next(b[n], acts[n], b[n + 1]);
    var s' := b[n + 1];
    forall i | i in s'.procs ensures TracedProc(b, n + 1, s'.procs[i]) {
      if acts[n].Spawn? && acts[n].i == i {
      } else {
        assert TracedProc(b, n, b[n].procs[i]);
        if acts[n].Call? && acts[n].i == i { TraceFeed(b, n, b[n].procs[i], acts[n].e); }
      }
    }
    forall sid | sid in s'.w.cache ensures TracedEntry(b, n + 1, sid, s'.w.cache[sid]) {
      TraceCache(b, acts, n, sid);
    }
  }

  lemma {:induction false} TraceHolds(b: seq<Sys>, acts: seq<Act>, n: nat)
    requires Behavior(b, acts) && Boot(b[0]) && n < |b|
    ensures Traced(b, n)
  {
    if n > 0 {
      TraceHolds(b, acts, n - 1);
      TraceNext(b, acts, n - 1);
    }
  }

  /** Workspace isolation: a finished resolution names its own session, by a row that was in the table. */
  lemma ResolutionIsIsolated(b: seq<Sys>, acts: seq<Act>, n: nat, i: nat)
    requires Behavior(b, acts) && Boot(b[0]) && n < |b|
    requires i in b[n].procs && b[n].procs[i].End? && b[n].procs[i].out.Resolved?
    ensures var o := b[n].procs[i].out; Naming(o.t) == o.sid && WasBound(b, n, o.sid, o.t)
  {
    NamingHolds(b, acts, n);
    TraceHolds(b, acts, n);
    assert Proper(b[n].procs[i]) && TracedProc(b, n, b[n].procs[i]);
  }

  /** A cache hit was put in the cache at most TTL ago, by a resolution that had read the row. */
  lemma HitIsFresh(b: seq<Sys>, acts: seq<Act>, n: nat, sid: string, t: Triple) returns (k: nat)
    requires Behavior(b, acts) && Boot(b[0]) && n < |b|
    requires Answers(b[n].w, CacheGet(sid), Hit(Some(t)))
    ensures k < n && Puts(b, k, sid, t, b[k].w.now + TTL)
    ensures b[k].w.now <= b[n].w.now <= b[k].w.now + TTL
  {
    TraceHolds(b, acts, n);
    assert TracedEntry(b, n, sid, b[n].w.cache[sid]);
    k :| 0 <= k < n && Puts(b, k, sid, t, b[n].w.cache[sid].exp);
  }
}
