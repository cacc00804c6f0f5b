/** The reconcile pass as a whole (reconcile.go): what one undisturbed fault-free pass does, in any
    iteration order. */
module Reconcile {
  import opened Names
  import opened Stores
  import opened Handlers
  import opened BigStep

  // ---- convergeDrift ----

  /** Rows of the given repositories whose bookmark or session is gone. */
  function BadRows(w: World, ks: set<Key>): set<Triple> {
    set t | t in w.rows && t.key in ks && !(HasBookmark(w, t) && w.rows[t] in w.sessions)
  }

  /** The rows in bad are gone and nothing else changed but cache entries, and none of those if bad is empty. */
  predicate RowsCut(w: World, bad: set<Triple>, w1: World) {
    w1 == w.(rows := w.rows - bad, cache := w1.cache) && (bad == {} ==> w1 == w)
  }

  function BadOf(rows: seq<Row>, m: Key, tree: Tree, live: set<string>): set<Triple> {
    set r | r in rows && !Keeps(r, m, tree, live) :: r.t
  }

  lemma {:induction false} DriftRowsFinish(w: World, rows: seq<Row>, m: Key, ms: seq<Key>, tree: Tree,
                                           live: set<string>, w': World, o: Outcome) returns (w1: World)
    requires Finishes(w, DriftRows(rows, m, ms, tree, live), w', o)
    ensures RowsCut(w, BadOf(rows, m, tree, live), w1)
    ensures Finishes(w1, DriftRepo(ms, tree, live), w', o)
    decreases |rows|
  {
    if rows == [] {
      w1 := w;
      assert w.rows - {} == w.rows;
    } else {
      BadOfHead(rows, m, tree, live);
      if Keeps(rows[0], m, tree, live) {
        w1 := DriftRowsFinish(w, rows[1..], m, ms, tree, live, w', o);
      } else {
        var w2 := DropOneFinishes(w, rows[0], rows[1..], m, ms, tree, live, w', o);
        w1 := DriftRowsFinish(w2, rows[1..], m, ms, tree, live, w', o);
        CutTwice(w, {rows[0].t}, w2, BadOf(rows[1..], m, tree, live), w1);
      }
    }
  }

  lemma BadOfHead(rows: seq<Row>, m: Key, tree: Tree, live: set<string>)
    requires rows != []
    ensures BadOf(rows, m, tree, live)
            == (if Keeps(rows[0], m, tree, live) then {} else {rows[0].t}) + BadOf(rows[1..], m, tree, live)
  {
    assert forall r :: r in rows <==> r == rows[0] || r in rows[1..];
  }

  lemma CutTwice(w: World, a: set<Triple>, w1: World, b: set<Triple>, w2: World)
    requires RowsCut(w, a, w1) && RowsCut(w1, b, w2)
    ensures RowsCut(w, a + b, w2)
  {
    assert w.rows - a - b == w.rows - (a + b);
  }

  lemma DropOneFinishes(w: World, row: Row, rest: seq<Row>, m: Key, ms: seq<Key>, tree: Tree, live: set<string>,
                        w': World, o: Outcome) returns (w2: World)
    requires Finishes(w, DriftDelete(row, rest, m, ms, tree, live), w', o)
    ensures RowsCut(w, {row.t}, w2)
    ensures Finishes(w2, DriftRows(rest, m, ms, tree, live), w', o)
  {
    hide Finishes;
    var a := Stepped(w, DriftDelete(row, rest, m, ms, tree, live), w', o);
    w2 := EvictFinishes(Effect(w, DeleteRow(row.t)), row, rest, m, ms, tree, live, w', o);
  }

  lemma EvictFinishes(w: World, row: Row, rest: seq<Row>, m: Key, ms: seq<Key>, tree: Tree, live: set<string>,
                      w': World, o: Outcome) returns (w2: World)
    requires Finishes(w, DriftEvict(row, rest, m, ms, tree, live), w', o)
    ensures w2 == w.(cache := w2.cache)
    ensures Finishes(w2, DriftRows(rest, m, ms, tree, live), w', o)
  {
    hide Finishes;
    var a := Stepped(w, DriftEvict(row, rest, m, ms, tree, live), w', o);
    w2 := Effect(w, CacheEvict(row.sid));
  }

  lemma {:induction false} DriftReposFinish(w: World, ms: seq<Key>, w': World, o: Outcome) returns (w1: World)
    requires Finishes(w, DriftRepo(ms, FullTree(w), w.sessions), w', o)
    ensures RowsCut(w, BadRows(w, set m | m in ms), w1)
    ensures Finishes(w1, PassRows(w.sessions), w', o)
    decreases |ms|
  {
    if ms == [] {
      w1 := w;
      assert w.rows - BadRows(w, set m | m in ms) == w.rows;
    } else {
      var w2 := DriftRepoFinishes(w, ms[0], ms[1..], w', o);
      w1 := DriftReposFinish(w2, ms[1..], w', o);
      CutTwice(w, BadRows(w, {ms[0]}), w2, BadRows(w2, set m | m in ms[1..]), w1);
      BadOfRepos(w, ms, w2);
    }
  }

  lemma BadOfRepos(w: World, ms: seq<Key>, w2: World)
    requires ms != [] && RowsCut(w, BadRows(w, {ms[0]}), w2)
    ensures BadRows(w, {ms[0]}) + BadRows(w2, set m | m in ms[1..]) == BadRows(w, set m | m in ms)
  {
    assert forall m :: m in ms <==> m == ms[0] || m in ms[1..];
  }

  lemma DriftRepoFinishes(w: World, m: Key, ms: seq<Key>, w': World, o: Outcome) returns (w1: World)
    requires Finishes(w, DriftList(m, ms, FullTree(w), w.sessions), w', o)
    ensures RowsCut(w, BadRows(w, {m}), w1)
    ensures Finishes(w1, DriftRepo(ms, FullTree(w), w.sessions), w', o)
  {
    var a := Stepped(w, DriftList(m, ms, FullTree(w), w.sessions), w', o);
    w1 := DriftRowsFinish(w, a.rows, m, ms, FullTree(w), w.sessions, w', o);
    ListedBad(w, m, a.rows);
  }

  lemma ListedBad(w: World, m: Key, rows: seq<Row>)
    requires Answers(w, ListRowsForRepo(m), Rows(rows))
    ensures BadOf(rows, m, FullTree(w), w.sessions) == BadRows(w, {m})
  {
    var listed := set r | r in RowSet(w) && r.t.key == m;
    assert forall r :: r in rows <==> r in listed;
    forall t | t in BadRows(w, {m}) ensures t in BadOf(rows, m, FullTree(w), w.sessions) {
      var r := Row(t, w.rows[t]);
      assert r in listed && r in rows && !Keeps(r, m, FullTree(w), w.sessions);
    }
    forall t | t in BadOf(rows, m, FullTree(w), w.sessions) ensures t in BadRows(w, {m}) {
      var r :| r in rows && !Keeps(r, m, FullTree(w), w.sessions) && r.t == t;
      assert r in listed;
    }
  }

  // ---- backfillWorkspaces ----

  predicate Skips(name: string, mapped: set<string>) {
    name in mapped || Parse(name).None?
  }

  function Filled(w: World, rest: seq<string>, mapped: set<string>): World
    decreases |rest|
  {
    if rest == [] then w
    else if Skips(rest[0], mapped) then Filled(w, rest[1..], mapped)
    else
      var t := Parse(rest[0]).value;
      if CreateStatus(w, t, rest[0]).Ok? then Filled(Create(w, t, rest[0]), rest[1..], mapped)
      else Create(w, t, rest[0])
  }

  function FilledStatus(w: World, rest: seq<string>, mapped: set<string>): Status
    decreases |rest|
  {
    if rest == [] then Ok
    else if Skips(rest[0], mapped) then FilledStatus(w, rest[1..], mapped)
    else
      var t := Parse(rest[0]).value;
      if CreateStatus(w, t, rest[0]).Ok? then FilledStatus(Create(w, t, rest[0]), rest[1..], mapped)
      else CreateStatus(w, t, rest[0])
  }

  lemma {:induction false} BackfillFinishes(w: World, rest: seq<string>, mapped: set<string>, w': World, o: Outcome)
    requires Finishes(w, Backfill(rest, mapped), w', o)
    ensures w' == Filled(w, rest, mapped) && o == Status(FilledStatus(w, rest, mapped))
    ensures o == Status(Ok) || o == Status(Fail(502))
    decreases |rest|
  {
    if rest == [] {
      Ended(w, Status(Ok), w', o);
    } else if Skips(rest[0], mapped) {
      BackfillFinishes(w, rest[1..], mapped, w', o);
    } else {
      var t, name := Parse(rest[0]).value, rest[0];
      CreateFinishes(w, t, name, NextSession(rest[1..], mapped), w', o);
      if CreateStatus(w, t, name).Ok? {
        BackfillFinishes(Create(w, t, name), rest[1..], mapped, w', o);
      } else {
        Ended(Create(w, t, name), Status(Fail(502)), w', o);
      }
    }
  }

  // ---- the whole pass ----

  lemma PassFinishes(w: World, w': World, o: Outcome) returns (w1: World, order: seq<string>)
    requires Finishes(w, PassSessions, w', o)
    ensures RowsCut(w, BadRows(w, w.managed), w1) && Enumerates(order, w.sessions)
    ensures w' == Filled(w1, order, w1.rows.Values) && o == Status(FilledStatus(w1, order, w1.rows.Values))
    ensures o == Status(Ok) || o == Status(Fail(502))
  {
    hide Finishes;
    var a := Stepped(w, PassSessions, w', o);
    var a1 := Stepped(w, PassManaged(w.sessions), w', o);
    if a1.keys == [] {
      w1 := w;
      assert w.managed == {};
      assert BadRows(w, w.managed) == {} && w.rows - {} == w.rows;
    } else {
      TreeFinishes(w, Drift(a1.keys, w.sessions), w', o);
      w1 := DriftReposFinish(w, a1.keys, w', o);
      assert (set m | m in a1.keys) == w.managed;
    }
    order := PassEnds(w1, w.sessions, w', o);
  }

  lemma PassEnds(w: World, live: set<string>, w': World, o: Outcome) returns (order: seq<string>)
    requires Finishes(w, PassRows(live), w', o)
    ensures Enumerates(order, live)
    ensures w' == Filled(w, order, w.rows.Values) && o == Status(FilledStatus(w, order, w.rows.Values))
    ensures o == Status(Ok) || o == Status(Fail(502))
  {
    var a := Stepped(w, PassRows(live), w', o);
    MappedValues(w, a.rows);
    order := OrderFinishes(w, live, w.rows.Values, w', o);
  }

  lemma OrderFinishes(w: World, live: set<string>, mapped: set<string>, w': World, o: Outcome)
      returns (order: seq<string>)
    requires Finishes(w, PassOrder(live, mapped), w', o)
    ensures Enumerates(order, live)
    ensures w' == Filled(w, order, mapped) && o == Status(FilledStatus(w, order, mapped))
    ensures o == Status(Ok) || o == Status(Fail(502))
  {
    hide Finishes;
    var a := Stepped(w, PassOrder(live, mapped), w', o);
    order := a.names;
    BackfillFinishes(w, order, mapped, w', o);
  }

  lemma MappedValues(w: World, rows: seq<Row>)
    requires Enumerates(rows, RowSet(w))
    ensures (set r | r in rows :: r.sid) == w.rows.Values
  {
    forall s | s in w.rows.Values ensures s in (set r | r in rows :: r.sid) {
      var t :| t in w.rows && w.rows[t] == s;
      assert Row(t, s) in RowSet(w) && Row(t, s) in rows;
    }
    forall r | r in rows ensures r.sid in w.rows.Values {
      assert r in RowSet(w);
    }
  }
}
