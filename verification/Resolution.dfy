/** Resolving a session to its workspace (sessions_http.go). */
module Resolution {
  import opened Names
  import opened Stores
  import opened Handlers
  import opened BigStep
  import opened Conclusions

  /** From the table: the row, which is then kept in the cache, else a 400 for a name that is not derived and a 404 for
      one that is. */
  predicate RowResolvedAs(w: World, sid: string, w': World, o: Outcome) {
    match Parse(sid)
    case None => o == Status(Fail(400)) && w' == w
    case Some(t) =>
      if t !in w.rows then o == Status(Fail(404)) && w' == w
      else o == Resolved(sid, t) && w' == w.(cache := w.cache[sid := Entry(t, w.now + TTL)])
  }

  /** What a resolution comes to: a cache entry that is still good, else the table. */
  predicate ResolvedAs(w: World, sid: string, w': World, o: Outcome) {
    if sid in w.cache && w.now <= w.cache[sid].exp then o == Resolved(sid, w.cache[sid].t) && w' == w
    else RowResolvedAs(w, sid, w', o)
  }

  lemma RowAnswers(w: World, sid: string, evs: seq<Ev>, w': World, o: Outcome)
    requires RowsNamed(w) && Path(w, ResolveRow(sid), evs, w', End(o)) && (Definite(o) || FaultFree(evs))
    ensures RowResolvedAs(w, sid, w', o)
  {
    hide Path, Naming, Parse;
    PathStep(w, ResolveRow(sid), evs, w', o);
    var a := evs[0].resp;
    if a.Failed? {
      PathEnd(w, Status(Fail(502)), evs[1..], w', o);
    } else if a.row.Some? {
      ParseExactly(sid, a.row.value.t);
      PutAnswers(w, sid, a.row.value.t, evs[1..], w', o);
    } else {
      NoRow(w, sid);
      PathEnd(w, Status(Fail(if Parse(sid).None? then 400 else 404)), evs[1..], w', o);
    }
  }

  lemma NoRow(w: World, sid: string)
    requires RowsNamed(w) && sid !in w.rows.Values
    ensures Parse(sid).Some? ==> Parse(sid).value !in w.rows
  {
    if Parse(sid).Some? { ParseExactly(sid, Parse(sid).value); }
  }

  lemma PutAnswers(w: World, sid: string, t: Triple, evs: seq<Ev>, w': World, o: Outcome)
    requires Path(w, ResolvePut(sid, t), evs, w', End(o))
    ensures o == Resolved(sid, t) && w' == w.(cache := w.cache[sid := Entry(t, w.now + TTL)])
  {
    hide Path;
    PathStep(w, ResolvePut(sid, t), evs, w', o);
    PathEnd(Effect(w, CachePut(sid, t)), Resolved(sid, t), evs[1..], w', o);
  }

  lemma HitAnswers(w: World, sid: string, evs: seq<Ev>, w': World, o: Outcome)
    requires Path(w, ResolveHit(sid), evs, w', End(o))
    ensures evs != []
    ensures if sid in w.cache && w.now <= w.cache[sid].exp then o == Resolved(sid, w.cache[sid].t) && w' == w
            else Path(w, ResolveRow(sid), evs[1..], w', End(o))
  {
    hide Path;
    PathStep(w, ResolveHit(sid), evs, w', o);
    if evs[0].resp.t.Some? { PathEnd(w, Resolved(sid, evs[0].resp.t.value), evs[1..], w', o); }
  }

  /** Whichever calls failed, a resolution that is given a definite answer comes to that, and without failing calls it
      always is. */
  lemma ResolutionAnswers(w: World, sid: string, evs: seq<Ev>, w': World, o: Outcome)
    requires RowsNamed(w) && Path(w, ResolveHit(sid), evs, w', End(o)) && (Definite(o) || FaultFree(evs))
    ensures ResolvedAs(w, sid, w', o)
  {
    hide Path, RowResolvedAs, RowsNamed, Definite;
    HitAnswers(w, sid, evs, w', o);
    if !(sid in w.cache && w.now <= w.cache[sid].exp) { RowAnswers(w, sid, evs[1..], w', o); }
  }
}
