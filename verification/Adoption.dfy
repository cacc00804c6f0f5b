/** Adoption: binding an existing bookmark to its derived session (sessions_http.go). */
module Adoption {
  import opened Names
  import opened Stores
  import opened Handlers
  import opened BigStep
  import opened Conclusions
  import opened Swallowed

  /** Where adoptBookmark may be once it has found no row. */
  predicate Adopting(pc: Pc, t: Triple) {
    pc == TreeList(Adopt(t)) || (pc.TreeScan? && pc.use == Adopt(t)) || pc == AdoptSession(t) || pc == AdoptInsert(t)
    || (pc.End? && !pc.out.Adopted?)
  }

  lemma AdoptingStep(w: World, pc: Pc, t: Triple, e: Ev)
    requires Adopting(pc, t) && !pc.End? && Legal(w, Request(pc), e)
    ensures var w1, next := After(w, Request(pc), e), Feed(pc, e.resp);
            Adopting(next, t) || (next == End(Adopted(Naming(t), true)) && t in w1.rows && w1.rows[t] == Naming(t))
  {
  }

  lemma {:induction false} AdoptingEnds(w: World, pc: Pc, t: Triple, evs: seq<Ev>, w': World, o: Outcome)
    requires Adopting(pc, t) && Path(w, pc, evs, w', End(o)) && o.Adopted?
    ensures o.sid == Naming(t) && t in w'.rows && w'.rows[t] == Naming(t)
    decreases |evs|
  {
    hide Feed, Request, Legal, After;
    AdoptingStep(w, pc, t, evs[0]);
    var w1, next := After(w, Request(pc), evs[0]), Feed(pc, evs[0].resp);
    if Adopting(next, t) { AdoptingEnds(w1, next, t, evs[1..], w', o); }
  }

  /** An adoption that succeeds names the derived session, and its row is there. */
  lemma AdoptionBinds(w: World, t: Triple, evs: seq<Ev>, w': World, o: Outcome)
    requires RowsNamed(w) && Path(w, AdoptGet(t), evs, w', End(o)) && o.Adopted?
    ensures o.sid == Naming(t) && t in w'.rows && w'.rows[t] == Naming(t)
  {
    var a := evs[0].resp;
    assert Path(After(w, GetRow(t), evs[0]), Feed(AdoptGet(t), a), evs[1..], w', End(o));
    if a.Found? && a.row.None? { AdoptingEnds(w, TreeList(Adopt(t)), t, evs[1..], w', o); }
  }

  /** What an adoption comes to: the row there is, or a new one for a bookmark that has none, or a 404. */
  predicate AdoptedAs(w: World, t: Triple, w': World, o: Outcome) {
    if t in w.rows then o == Adopted(Naming(t), false) && w' == w
    else if HasBookmark(w, t) then
      o == Adopted(Naming(t), true)
      && w' == w.(sessions := w.sessions + {Naming(t)}, rows := w.rows[t := Naming(t)])
    else o == Status(Fail(404)) && w' == w
  }

  lemma OrphanConcludes(w: World, t: Triple, w': World, o: Outcome)
    requires Sound(w) && t !in w.rows && HasBookmark(w, t) && Concludes(w, AdoptSession(t), w', o)
    ensures AdoptedAs(w, t, w', o)
  {
    hide Concludes, Naming;
    ConflictMeansBound(w, t, t);
    var a := Worked(w, AdoptSession(t), w', o);
    var w1 := Effect(w, EnsureSession(Naming(t)));
    var a1 := Worked(w1, AdoptInsert(t), w', o);
    Over(Effect(w1, InsertRow(t, Naming(t))), Adopted(Naming(t), true), w', o);
  }

  /** Whichever calls failed, an adoption that is given a definite answer comes to that, or else the bookmark is there
      and not found. */
  lemma AdoptionConcludes(w: World, t: Triple, w': World, o: Outcome)
    requires Sound(w) && Concludes(w, AdoptGet(t), w', o)
    ensures AdoptedAs(w, t, w', o) || (t !in w.rows && HasBookmark(w, t) && o == Status(Fail(404)) && w' == w)
  {
    hide Concludes, Naming;
    var a := Worked(w, AdoptGet(t), w', o);
    if t in w.rows {
      Over(w, Adopted(Naming(t), false), w', o);
    } else {
      var seen := TreeConcludes(w, Adopt(t), w', o);
      if Shows(seen, t) { OrphanConcludes(w, t, w', o); } else { Over(w, Status(Fail(404)), w', o); }
    }
  }

  /** Without failing calls it comes to that. */
  lemma AdoptionAnswers(w: World, t: Triple, w': World, o: Outcome)
    requires Sound(w) && Finishes(w, AdoptGet(t), w', o)
    ensures AdoptedAs(w, t, w', o)
  {
    hide Finishes, Concludes, Naming;
    var a := Stepped(w, AdoptGet(t), w', o);
    if t in w.rows {
      Ended(w, Adopted(Naming(t), false), w', o);
    } else {
      TreeFinishes(w, Adopt(t), w', o);
      assert Shows(FullTree(w), t) <==> HasBookmark(w, t);
      if HasBookmark(w, t) { OrphanFinishes(w, t, w', o); } else { Ended(w, Status(Fail(404)), w', o); }
    }
  }

  lemma OrphanFinishes(w: World, t: Triple, w': World, o: Outcome)
    requires Sound(w) && t !in w.rows && HasBookmark(w, t) && Finishes(w, AdoptSession(t), w', o)
    ensures AdoptedAs(w, t, w', o)
  {
    hide Finishes, Naming;
    ConflictMeansBound(w, t, t);
    var a := Stepped(w, AdoptSession(t), w', o);
    var w1 := Effect(w, EnsureSession(Naming(t)));
    var a1 := Stepped(w1, AdoptInsert(t), w', o);
    Ended(Effect(w1, InsertRow(t, Naming(t))), Adopted(Naming(t), true), w', o);
  }

  lemma LookedOver(w: World, t: Triple, evs: seq<Ev>, w': World, o: Outcome)
    requires t !in w.rows && Path(w, AdoptGet(t), evs, w', End(o)) && Definite(o)
    ensures |evs| >= 2 && evs[1].resp.Repos? && Enumerates(evs[1].resp.keys, w.repos.Keys)
    ensures Path(w, Scan(Adopt(t), evs[1].resp.keys, map[]), evs[2..], w', End(o))
  {
    var e := evs[0];
    assert Path(After(w, GetRow(t), e), Feed(AdoptGet(t), e.resp), evs[1..], w', End(o));
    ListedOver(w, t, evs[1..], w', o);
    assert evs[1..][1..] == evs[2..];
  }

  lemma ListedOver(w: World, t: Triple, evs: seq<Ev>, w': World, o: Outcome)
    requires Path(w, TreeList(Adopt(t)), evs, w', End(o)) && Definite(o)
    ensures evs != [] && evs[0].resp.Repos? && Enumerates(evs[0].resp.keys, w.repos.Keys)
    ensures Path(w, Scan(Adopt(t), evs[0].resp.keys, map[]), evs[1..], w', End(o))
  {
    var e := evs[0];
    assert Path(After(w, ListRepos, e), Feed(TreeList(Adopt(t)), e.resp), evs[1..], w', End(o));
  }

  lemma AdoptEnds(w: World, t: Triple, tree: Tree, w': World, o: Outcome)
    requires Sound(w) && t !in w.rows && HasBookmark(w, t) && Concludes(w, UseTree(Adopt(t), tree), w', o)
    ensures o == Status(Fail(404)) <==> !Shows(tree, t)
  {
    hide Concludes;
    if Shows(tree, t) { OrphanConcludes(w, t, w', o); } else { Over(w, Status(Fail(404)), w', o); }
  }

  /** An existing bookmark without a row is refused if and only if its repository's listing had failed. */
  lemma AdoptionMissesIff(w: World, t: Triple, evs: seq<Ev>, w': World, o: Outcome)
    requires Sound(w) && t !in w.rows && HasBookmark(w, t) && Path(w, AdoptGet(t), evs, w', End(o)) && Definite(o)
    ensures |evs| >= 2 && evs[1].resp.Repos?
    ensures o == Status(Fail(404)) <==> Unanswered(evs[1].resp.keys, evs[2..], t.key)
  {
    hide Path;
    LookedOver(w, t, evs, w', o);
    var keys := evs[1].resp.keys;
    ScanPath(w, Adopt(t), keys, map[], evs[2..], w', o);
    WalkShows(w, keys, evs[2..], map[], t);
    assert Concludes(w, UseTree(Adopt(t), Walk(keys, evs[2..], map[])), w', o);
    AdoptEnds(w, t, Walk(keys, evs[2..], map[]), w', o);
  }

  /** What is told of every run of an adoption. */
  lemma Adoptions(w: World, t: Triple, evs: seq<Ev>, w': World, o: Outcome)
    requires Sound(w) && Path(w, AdoptGet(t), evs, w', End(o))
    ensures FaultFree(evs) || (Definite(o) && o != Status(Fail(404))) ==> AdoptedAs(w, t, w', o)
    ensures o == Status(Fail(404)) ==> t !in w.rows && w' == w
  {
    hide Path, Sound;
    if FaultFree(evs) {
      assert Finishes(w, AdoptGet(t), w', o);
      AdoptionAnswers(w, t, w', o);
    }
    if Definite(o) {
      assert Concludes(w, AdoptGet(t), w', o);
      AdoptionConcludes(w, t, w', o);
    }
  }
}
