/** What a definite answer is worth, whichever of the handler's calls failed: a lifecycle event that reports success
    has done what it asks for, one that is given up could not have been done, and a pass that reports success has
    healed (events_sub.go, reconcile.go, errs.go). */
module Acknowledged {
  import opened Names
  import opened Stores
  import opened Handlers
  import opened BigStep
  import opened Reconcile
  import opened Stabilise
  import opened Verdicts
  import opened Conclusions

  // ---- lifecycle events ----

  /** The workspace of t is there: its row, its bookmark, and the bookmarks there were. */
  ghost predicate Gains(w: World, t: Triple, w': World) {
    && w'.sessions == w.sessions && w'.managed == w.managed + {t.key}
    && t in w'.rows && w'.rows[t] == Naming(t) && HasBookmark(w', t) && KeepsPositions(w, w')
  }

  /** A session that has no workspace yet gets one, at `main`. */
  ghost predicate CreatedDone(w: World, t: Triple, w': World) {
    if t in w.rows then w' == w
    else Gains(w, t, w') && w'.rows == w.rows[t := Naming(t)]
         && (!HasBookmark(w, t) ==> Position(w', t) == Base(w, t.key))
  }

  lemma CreateDone(w: World, t: Triple)
    requires RowsNamed(w) && Clean(t) && CreateStatus(w, t, Naming(t)).Ok?
    ensures var z := Create(w, t, Naming(t));
            && CreatedDone(w, t, z)
            && (forall u :: HasBookmark(z, u) && u.key in w.repos ==> HasBookmark(w, u) || u == t)
            && forall u :: HasBookmark(z, u) && !HasBookmark(w, u) && u.key == t.key ==>
                 Position(z, u) == Base(w, t.key)
  {
    hide Create, CreateStatus, Naming, KeepsPositions;
    ConflictMeansBound(w, t, t);
    if t in w.rows {
      CreateBound(w, t);
    } else {
      CreateOkIff(w, t);
      CreateStores(w, t);
    }
  }

  /** The workspace a fork starts from: the parent's, or the one of `main` if the parent has no derived name. */
  function Source(t: Triple, parentSid: string): Triple {
    match Parse(parentSid) case None => MainOf(t.key) case Some(p) => p
  }

  /** A forked session that has no workspace yet gets one where its parent is, and a parent without a workspace gets
      one first, at `main`. */
  ghost predicate ForkedDone(w: World, t: Triple, parentSid: string, w': World) {
    if t in w.rows then w' == w
    else
      var p := Source(t, parentSid);
      && p.key == t.key && Gains(w, t, w')
      && w'.rows == (if Parse(parentSid).Some? then w.rows[p := Naming(p)] else w.rows)[t := Naming(t)]
      && (!HasBookmark(w, t) && HasBookmark(w, p) ==> Position(w', t) == Position(w, p))
      && (!HasBookmark(w, t) && !HasBookmark(w, p) && Parse(parentSid).Some? && p !in w.rows ==>
            Position(w', t) == Base(w, t.key))
  }

  lemma EnsureDone(w: World, t: Triple, rev: Rev)
    requires RowsNamed(w) && Clean(t) && AnchorStatus(w, t, rev).Ok?
    ensures var z := Ensured(w, t, rev, Naming(t));
            && z.sessions == w.sessions && z.managed == (if t in w.rows then w.managed else w.managed + {t.key})
            && z.rows == w.rows[t := Naming(t)] && HasBookmark(z, t) && KeepsPositions(w, z)
            && (!HasBookmark(w, t) ==> Resolve(w.repos[t.key], rev) == Some(Position(z, t)))
  {
    hide Naming;
    var w1 := Anchor(w, t, rev);
    assert w1.rows == w.rows;
    ConflictMeansBound(w1, t, t);
    assert t in w.rows ==> w.rows[t := Naming(t)] == w.rows;
  }

  lemma ForkDone(w: World, t: Triple, parentSid: string)
    requires RowsNamed(w) && Clean(t) && ForkStatus(w, t, Naming(t), parentSid).Ok?
    ensures ForkedDone(w, t, parentSid, Fork(w, t, Naming(t), parentSid))
  {
    hide Naming, Create, CreateStatus, Ensured, AnchorStatus;
    ConflictMeansBound(w, t, t);
    if t !in w.rows {
      if Parse(parentSid).None? {
        EnsureDone(w, t, Tip(MAIN));
      } else {
        var p := Parse(parentSid).value;
        ParseExactly(parentSid, p);
        ForkFromDone(w, t, p, parentSid);
      }
    }
  }

  lemma ForkFromDone(w: World, t: Triple, p: Triple, parentSid: string)
    requires RowsNamed(w) && Clean(t) && Clean(p) && t !in w.rows && p.key == t.key && Parse(parentSid) == Some(p)
    requires ForkFromStatus(w, t, p).Ok?
    ensures ForkedDone(w, t, parentSid, ForkFrom(w, t, Naming(t), p))
  {
    hide Naming, Create, CreateStatus, Ensured, AnchorStatus, Parse;
    if p in w.rows {
      EnsureDone(w, t, Tip(p.bm));
      assert w.rows[p := Naming(p)] == w.rows;
    } else {
      var w1 := Create(w, p, Naming(p));
      CreateDone(w, p);
      EnsureDone(w1, t, Tip(p.bm));
      assert KeepsPositions(w, ForkFrom(w, t, Naming(t), p));
    }
  }

  /** The row, the cache entry and, unless its listing failed, the bookmark go over to the new name; if that has a row
      already, nothing but its bookmark is added. */
  ghost predicate RenamedDone(w: World, from: Triple, to: Triple, w': World) {
    if from !in w.rows then CreatedDone(w, to, w')
    else
      && from.key == to.key && w'.sessions == w.sessions && w'.managed == w.managed
      && (from != to ==> HasBookmark(w', to))
      && (forall u :: u != from && HasBookmark(w, u) ==> HasBookmark(w', u) && Position(w', u) == Position(w, u))
      && (from != to && HasBookmark(w, from) && !HasBookmark(w, to) ==> Position(w', to) == Position(w, from))
      && if from != to && to in w.rows then w'.rows == w.rows && w'.cache == w.cache && KeepsPositions(w, w')
         else w'.rows == (w.rows - {from})[to := Naming(to)] && w'.cache == w.cache - {Naming(from)}
  }

  lemma RenameDone(w: World, from: Triple, to: Triple, w': World)
    requires RowsNamed(w) && Clean(from) && Clean(to) && from.key == to.key && from in w.rows
    requires AnchorStatus(w, to, Tip(from.bm)).Ok?
    requires var w1 := Anchor(w, to, Tip(from.bm));
             if Taken(w.rows - {from}, to, Naming(to)) then w' == w1
             else w' == Moved(w1, from, to) || w' == Effect(Moved(w1, from, to), DropBookmark(from))
    ensures RenamedDone(w, from, to, w')
  {
    hide Naming, Clean, Taken, Moved, Anchor, AnchorStatus;
    var w1 := Anchor(w, to, Tip(from.bm));
    AnchorDone(w, to, Tip(from.bm));
    if from == to { SelfTarget(w, from); } else { ConflictMeansBound(w, to, from); }
    if !Taken(w.rows - {from}, to, Naming(to)) {
      MovedStores(w1, from, to);
      DropStores(Moved(w1, from, to), from);
    }
  }

  lemma AnchorDone(w: World, t: Triple, rev: Rev)
    requires AnchorStatus(w, t, rev).Ok?
    ensures var z := Anchor(w, t, rev);
            && z == w.(repos := z.repos) && HasBookmark(z, t) && KeepsPositions(w, z)
            && (!HasBookmark(w, t) ==> Resolve(w.repos[t.key], rev) == Some(Position(z, t)))
  {
  }

  lemma MovedStores(w: World, from: Triple, to: Triple)
    requires from in w.rows && !Taken(w.rows - {from}, to, Naming(to))
    ensures Moved(w, from, to) ==
            w.(rows := (w.rows - {from})[to := Naming(to)], cache := w.cache - {Naming(from)})
  {
    hide Naming;
  }

  lemma DropStores(w: World, t: Triple)
    ensures var z := Effect(w, DropBookmark(t));
            && z == w.(repos := z.repos) && !HasBookmark(z, t)
            && (forall u :: u != t ==> (HasBookmark(z, u) <==> HasBookmark(w, u)))
            && (forall u :: u != t && HasBookmark(w, u) ==> Position(z, u) == Position(w, u))
  {
  }

  lemma SelfTarget(w: World, t: Triple)
    requires RowsNamed(w) && Clean(t)
    ensures !Taken(w.rows - {t}, t, Naming(t))
  {
    if Naming(t) in (w.rows - {t}).Values {
      var u :| u in w.rows - {t} && w.rows[u] == Naming(t);
      NamingInjective(u, t);
    }
  }

  /** The row and the cache entry are gone, and so is the bookmark unless its listing failed. */
  ghost predicate DeletedDone(w: World, t: Triple, w': World) {
    if t !in w.rows then w' == w
    else
      && w'.sessions == w.sessions && w'.managed == w.managed
      && w'.rows == w.rows - {t} && w'.cache == w.cache - {Naming(t)}
      && (forall u :: u != t ==> (HasBookmark(w', u) <==> HasBookmark(w, u)))
      && (forall u :: u != t && HasBookmark(w, u) ==> Position(w', u) == Position(w, u))
  }

  /** What an event asks for. Events on names that are not derived, and on two repositories, never succeed. */
  ghost predicate EventDone(w: World, e: Event, w': World) {
    match e
    case Created(sid) => Parse(sid).Some? && CreatedDone(w, Parse(sid).value, w')
    case Forked(sid, parent) => Parse(sid).Some? && ForkedDone(w, Parse(sid).value, parent, w')
    case Renamed(from, to) =>
      Parse(from).Some? && Parse(to).Some? && RenamedDone(w, Parse(from).value, Parse(to).value, w')
    case Deleted(sid) => Parse(sid).Some? && DeletedDone(w, Parse(sid).value, w')
  }

  /** Whichever of its calls failed, a lifecycle event that reports success has done what it asks for; one that is
      given up with a permanent error would have been without any failure too, and has changed nothing. Any other
      answer is a 5xx status, after which the event comes again. */
  lemma AnswerIsVerdict(w: World, e: Event, evs: seq<Ev>, w': World, st: Status)
    requires RowsNamed(w) && Path(w, OnEvent(e), evs, w', Stop(st)) && Definite(Status(st))
    ensures st == Verdict(w, e)
    ensures if st.Ok? then EventDone(w, e, w') else w' == w
  {
    hide Path, EventDone, Handle, HandleStatus, Verdict, RowsNamed, OnEvent;
    assert Concludes(w, OnEvent(e), w', Status(st));
    EventConcludes(w, e, w', Status(st));
    VerdictHolds(w, e);
    if st.Ok? { SuccessMeansDone(w, e, w'); }
  }

  lemma SuccessMeansDone(w: World, e: Event, w': World)
    requires RowsNamed(w) && Concludes(w, OnEvent(e), w', Status(Ok))
    ensures EventDone(w, e, w')
  {
    hide Concludes, CreatedDone, ForkedDone, RenamedDone, DeletedDone, Create, Fork, Rename, Delete, RowsNamed;
    var pc, o := OnEvent(e), Status(Ok);
    EventConcludes(w, e, w', o);
    if pc.CreatedLookup? {
      ParseExactly(pc.sid, pc.t);
      CreateDone(w, pc.t);
    } else if pc.ForkedLookup? {
      ParseExactly(pc.sid, pc.t);
      ForkDone(w, pc.t, pc.parentSid);
    } else if pc.RenameGet? {
      ParseExactly(e.from, pc.from);
      ParseExactly(e.to, pc.to);
      RenamedSuccess(w, pc.from, pc.to, w');
    } else if pc.DeletedLookup? {
      ParseExactly(pc.sid, pc.t);
      DeletedSuccess(w, pc.t, w');
    }
  }

  lemma RenamedSuccess(w: World, from: Triple, to: Triple, w': World)
    requires RowsNamed(w) && Clean(from) && Clean(to) && from.key == to.key
    requires Concludes(w, RenameGet(from, to), w', Status(Ok))
    ensures RenamedDone(w, from, to, w')
  {
    hide Concludes, Create, CreateStatus, CreatedDone, RowsNamed;
    RenamedConcludes(w, from, to, w', Status(Ok));
    if from in w.rows {
      RenameConcludes(w, from, to, w', Status(Ok));
      RenameDone(w, from, to, w');
    } else {
      CreateDone(w, to);
    }
  }

  lemma DeletedSuccess(w: World, t: Triple, w': World)
    requires RowsNamed(w) && Clean(t) && Concludes(w, DeletedLookup(t, Naming(t)), w', Status(Ok))
    ensures DeletedDone(w, t, w')
  {
    hide Concludes, Naming, Clean;
    ConflictMeansBound(w, t, t);
    DeleteConcludes(w, t, Naming(t), w', Status(Ok));
    DropStores(w, t);
  }

  /** In particular the row is there after a creation, a fork and a rename. */
  lemma SuccessMeansBound(w: World, t: Triple, e: Event, evs: seq<Ev>, w': World)
    requires RowsNamed(w) && Clean(t) && Path(w, OnEvent(e), evs, w', Stop(Ok))
    requires match e case Renamed(_, to) => to == Naming(t) case Deleted(_) => false case _ => e.sid == Naming(t)
    ensures t in w'.rows && w'.rows[t] == Naming(t)
  {
    hide Path, OnEvent, Verdict;
    AnswerIsVerdict(w, e, evs, w', Ok);
    ParseExactly(Naming(t), t);
  }

  // ---- reconcile passes ----

  lemma {:induction false} DriftRowsConclude(w: World, rows: seq<Row>, m: Key, ms: seq<Key>, tree: Tree,
                                            live: set<string>, w': World, o: Outcome) returns (w1: World)
    requires Concludes(w, DriftRows(rows, m, ms, tree, live), w', o)
    ensures RowsCut(w, BadOf(rows, m, tree, live), w1)
    ensures Concludes(w1, DriftRepo(ms, tree, live), w', o)
    decreases |rows|
  {
    hide Concludes, Keeps;
    if rows == [] {
      w1 := w;
      assert w.rows - {} == w.rows;
    } else {
      BadOfHead(rows, m, tree, live);
      if Keeps(rows[0], m, tree, live) {
        w1 := DriftRowsConclude(w, rows[1..], m, ms, tree, live, w', o);
      } else {
        var w2 := DropOneConcludes(w, rows[0], rows[1..], m, ms, tree, live, w', o);
        w1 := DriftRowsConclude(w2, rows[1..], m, ms, tree, live, w', o);
        CutTwice(w, {rows[0].t}, w2, BadOf(rows[1..], m, tree, live), w1);
      }
    }
  }

  lemma DropOneConcludes(w: World, row: Row, rest: seq<Row>, m: Key, ms: seq<Key>, tree: Tree, live: set<string>,
                        w': World, o: Outcome) returns (w2: World)
    requires Concludes(w, DriftDelete(row, rest, m, ms, tree, live), w', o)
    ensures RowsCut(w, {row.t}, w2)
    ensures Concludes(w2, DriftRows(rest, m, ms, tree, live), w', o)
  {
    hide Concludes;
    var a := Worked(w, DriftDelete(row, rest, m, ms, tree, live), w', o);
    var w1 := Effect(w, DeleteRow(row.t));
    var a1 := Worked(w1, DriftEvict(row, rest, m, ms, tree, live), w', o);
    w2 := Effect(w1, CacheEvict(row.sid));
  }

  /** A listing that fails can only make more rows look bad. */
  lemma ListedBadAtLeast(w: World, m: Key, rows: seq<Row>, tree: Tree)
    requires Answers(w, ListRowsForRepo(m), Rows(rows)) && Seen(w, tree)
    ensures var bad := BadOf(rows, m, tree, w.sessions); BadRows(w, {m}) <= bad && forall t <- bad :: t.key == m
  {
    var listed := set r | r in RowSet(w) && r.t.key == m;
    assert forall r :: r in rows <==> r in listed;
    forall t | t in BadRows(w, {m}) ensures t in BadOf(rows, m, tree, w.sessions) {
      var r := Row(t, w.rows[t]);
      assert r in listed && r in rows && !Keeps(r, m, tree, w.sessions);
    }
    forall t | t in BadOf(rows, m, tree, w.sessions) ensures t.key == m {
      var r :| r in rows && !Keeps(r, m, tree, w.sessions) && r.t == t;
      assert r in listed;
    }
  }

  lemma {:induction false} DriftReposConclude(w: World, ms: seq<Key>, tree: Tree, w': World, o: Outcome)
      returns (w1: World, bad: set<Triple>)
    requires Seen(w, tree) && Concludes(w, DriftRepo(ms, tree, w.sessions), w', o)
    ensures RowsCut(w, bad, w1) && BadRows(w, set m | m in ms) <= bad && forall t <- bad :: t.key in ms
    ensures Concludes(w1, PassRows(w.sessions), w', o)
    decreases |ms|
  {
    hide Concludes;
    if ms == [] {
      w1, bad := w, {};
      assert w.rows - {} == w.rows;
    } else {
      var a := Worked(w, DriftList(ms[0], ms[1..], tree, w.sessions), w', o);
      var w2 := DriftRowsConclude(w, a.rows, ms[0], ms[1..], tree, w.sessions, w', o);
      var bad1, bad2 := BadOf(a.rows, ms[0], tree, w.sessions), {};
      ListedBadAtLeast(w, ms[0], a.rows, tree);
      w1, bad2 := DriftReposConclude(w2, ms[1..], tree, w', o);
      bad := bad1 + bad2;
      CutTwice(w, bad1, w2, bad2, w1);
      BadOfMore(w, ms, bad1, w2, bad2);
    }
  }

  lemma BadOfMore(w: World, ms: seq<Key>, bad1: set<Triple>, w2: World, bad2: set<Triple>)
    requires ms != [] && RowsCut(w, bad1, w2)
    requires BadRows(w, {ms[0]}) <= bad1 && BadRows(w2, set m | m in ms[1..]) <= bad2
    ensures BadRows(w, set m | m in ms) <= bad1 + bad2
  {
    forall t | t in BadRows(w, set m | m in ms) ensures t in bad1 + bad2 {
      if t.key == ms[0] { assert t in BadRows(w, {ms[0]}); }
      else if t !in bad1 { assert t.key in ms[1..] && t in BadRows(w2, set m | m in ms[1..]); }
    }
  }

  lemma {:induction false} BackfillConcludes(w: World, rest: seq<string>, mapped: set<string>, w': World, o: Outcome)
    requires Concludes(w, Backfill(rest, mapped), w', o)
    ensures w' == Filled(w, rest, mapped) && FilledStatus(w, rest, mapped) == Ok && o == Status(Ok)
    decreases |rest|
  {
    hide Concludes, Create, CreateStatus;
    if rest == [] {
      Over(w, Status(Ok), w', o);
    } else if Skips(rest[0], mapped) {
      BackfillConcludes(w, rest[1..], mapped, w', o);
    } else {
      var t := Parse(rest[0]).value;
      CreateConcludes(w, t, rest[0], NextSession(rest[1..], mapped), w', o);
      BackfillConcludes(Create(w, t, rest[0]), rest[1..], mapped, w', o);
    }
  }

  lemma PassConcludes(w: World, w': World, o: Outcome) returns (w1: World, bad: set<Triple>, order: seq<string>)
    requires Concludes(w, PassSessions, w', o)
    ensures RowsCut(w, bad, w1) && BadRows(w, w.managed) <= bad && forall t <- bad :: t.key in w.managed
    ensures Enumerates(order, w.sessions)
    ensures w' == Filled(w1, order, w1.rows.Values) && FilledStatus(w1, order, w1.rows.Values) == Ok && o == Status(Ok)
  {
    hide Concludes;
    var a := Worked(w, PassSessions, w', o);
    var a1 := Worked(w, PassManaged(w.sessions), w', o);
    if a1.keys == [] {
      w1, bad := w, {};
      assert w.managed == {};
      assert BadRows(w, w.managed) == {} && w.rows - {} == w.rows;
    } else {
      var seen := TreeConcludes(w, Drift(a1.keys, w.sessions), w', o);
      w1, bad := DriftReposConclude(w, a1.keys, seen, w', o);
      assert (set m | m in a1.keys) == w.managed;
    }
    order := FillConcludes(w1, w.sessions, w', o);
  }

  lemma FillConcludes(w: World, live: set<string>, w': World, o: Outcome) returns (order: seq<string>)
    requires Concludes(w, PassRows(live), w', o)
    ensures Enumerates(order, live)
    ensures w' == Filled(w, order, w.rows.Values) && FilledStatus(w, order, w.rows.Values) == Ok && o == Status(Ok)
  {
    hide Concludes, Backfill;
    var a := Worked(w, PassRows(live), w', o);
    MappedValues(w, a.rows);
    var a1 := Worked(w, PassOrder(live, w.rows.Values), w', o);
    order := a1.names;
    BackfillConcludes(w, order, w.rows.Values, w', o);
  }

  lemma ToFillExactly(w: World, order: seq<string>, live: set<string>, t: Triple)
    requires RowsNamed(w) && Enumerates(order, live)
    ensures t in ToFill(order, w.rows.Values) <==> Clean(t) && Naming(t) in live && t !in w.rows
  {
    ParseExactly(Naming(t), t);
    if Clean(t) { ConflictMeansBound(w, t, t); }
    if t in ToFill(order, w.rows.Values) {
      var sid :| sid in order && !Skips(sid, w.rows.Values) && Parse(sid).value == t;
      ParseExactly(sid, t);
    }
    if Clean(t) && Naming(t) in live && t !in w.rows { assert !Skips(Naming(t), w.rows.Values); }
  }

  /** Rows dropped because a listing failed are bound again: their sessions are live. */
  lemma Refilled(w: World, bad: set<Triple>, w1: World, todo: set<Triple>, t: Triple)
    requires RowsNamed(w) && RowsCut(w, bad, w1) && BadRows(w, w.managed) <= bad
    requires forall u <- bad :: u.key in w.managed
    requires t in todo <==> Clean(t) && Naming(t) in w.sessions && t !in w1.rows
    ensures t in Missing(w) ==> t in todo
    ensures t in todo && t !in Missing(w) ==> t.key in w.managed
    ensures t in w1.rows || t in todo <==> t in KeptRows(w) || t in Missing(w)
  {
    MissingExactly(w, t);
    if t in KeptRows(w) && t !in w1.rows { assert t !in BadRows(w, w.managed) && w.rows[t] == Naming(t); }
  }

  lemma RefilledRow(w: World, bad: set<Triple>, w1: World, todo: set<Triple>, t: Triple)
    requires RowsNamed(w) && RowsCut(w, bad, w1) && BadRows(w, w.managed) <= bad
    requires forall u <- bad :: u.key in w.managed
    requires t in todo <==> Clean(t) && Naming(t) in w.sessions && t !in w1.rows
    ensures var z, full := w1.rows + RowsFor(todo), KeptRows(w) + RowsFor(Missing(w));
            (t in z <==> t in full) && (t in z ==> z[t] == full[t] == Naming(t))
  {
    hide Naming, BadRows, Missing;
    Refilled(w, bad, w1, todo, t);
  }

  lemma RefilledRows(w: World, bad: set<Triple>, w1: World, todo: set<Triple>, w': World)
    requires RowsNamed(w) && RowsCut(w, bad, w1) && BadRows(w, w.managed) <= bad
    requires forall u <- bad :: u.key in w.managed
    requires forall t :: t in todo <==> Clean(t) && Naming(t) in w.sessions && t !in w1.rows
    requires w'.rows == w1.rows + RowsFor(todo) && w'.managed == w1.managed + KeysOf(todo)
    ensures w'.rows == KeptRows(w) + RowsFor(Missing(w)) && w'.managed == w.managed + KeysOf(Missing(w))
  {
    hide Naming, Clean, BadRows, Missing, KeptRows, RowsFor, RowsNamed;
    var full := KeptRows(w) + RowsFor(Missing(w));
    forall t ensures (t in w'.rows <==> t in full) && (t in w'.rows ==> w'.rows[t] == full[t]) {
      RefilledRow(w, bad, w1, todo, t);
    }
    forall t ensures t in Missing(w) ==> t in todo
             ensures t in todo && t !in Missing(w) ==> t.key in w.managed {
      Refilled(w, bad, w1, todo, t);
    }
  }

  /** Rows as a fault-free pass leaves them, and the bookmarks of those that were filled in. */
  lemma RefilledHeals(w: World, todo: set<Triple>, w': World)
    requires RowsNamed(w) && Missing(w) <= todo && w'.sessions == w.sessions
    requires w'.rows == KeptRows(w) + RowsFor(Missing(w)) && KeepsPositions(w, w')
    requires forall t <- todo :: HasBookmark(w', t)
    ensures AllMapped(w') && BadRows(w', w.managed) == {}
  {
    forall t ensures t in Missing(w) <==> Clean(t) && Naming(t) in w.sessions && t !in KeptRows(w) {
      MissingExactly(w, t);
    }
  }

  /** A pass that is given a definite answer succeeds, and one that succeeds has healed, whichever of its calls failed:
      every live derived session has its row, no repository managed when it started has a row without bookmark or
      session, the rows are those a fault-free pass leaves, and no bookmark has moved. */
  lemma PassSuccessHeals(w: World, evs: seq<Ev>, w': World, st: Status)
    requires RowsNamed(w) && Path(w, PassSessions, evs, w', Stop(st)) && Definite(Status(st))
    ensures st == Ok
    ensures AllMapped(w') && BadRows(w', w.managed) == {} && KeepsPositions(w, w') && w'.sessions == w.sessions
    ensures w'.rows == KeptRows(w) + RowsFor(Missing(w)) && w'.managed == w.managed + KeysOf(Missing(w))
  {
    hide Path, KeepsPositions, BadRows, Missing, Naming;
    assert Concludes(w, PassSessions, w', Status(st));
    var w1, bad, order := PassConcludes(w, w', Status(st));
    var todo := ToFill(order, w1.rows.Values);
    StartProgress(w1);
    FillAll(w1, w1, {}, order, w1.rows.Values);
    assert {} + todo == todo;
    SameBookmarks(w, w1, w');
    forall t ensures t in todo <==> Clean(t) && Naming(t) in w.sessions && t !in w1.rows {
      ToFillExactly(w1, order, w.sessions, t);
    }
    RefilledRows(w, bad, w1, todo, w');
    forall t | t in Missing(w) ensures t in todo { Refilled(w, bad, w1, todo, t); }
    RefilledHeals(w, todo, w');
  }
}
