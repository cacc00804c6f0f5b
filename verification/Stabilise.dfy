/** Self-stabilisation: from any state with the naming invariant, two undisturbed fault-free passes make
    the rows of managed repositories exactly the live derived sessions, each with its bookmark, and a
    third changes nothing, whatever order the sessions are visited in (reconcile.go). */
module Stabilise {
  import opened Names
  import opened Stores
  import opened Handlers
  import opened BigStep
  import opened Reconcile

  function MainOf(k: Key): Triple {
    Triple(k, MAIN)
  }

  /** A backfill of t can be anchored: its repository is new, or has `main`, or has the bookmark already. */
  predicate Anchorable(w: World, t: Triple) {
    t.key !in w.repos || HasBookmark(w, t) || HasBookmark(w, MainOf(t.key))
  }

  /** Where a backfill puts a new bookmark: at `main`, which a new repository has at its root. */
  function Base(w: World, k: Key): Commit {
    if HasBookmark(w, MainOf(k)) then Position(w, MainOf(k)) else ROOT
  }

  predicate AllAnchorable(w: World, ts: set<Triple>) {
    forall t :: t in ts ==> Anchorable(w, t)
  }

  /** Rows the drift rules leave alone. */
  function KeptRows(w: World): map<Triple, string> {
    w.rows - BadRows(w, w.managed)
  }

  /** Live derived sessions without such a row: the ones a pass backfills. */
  function Missing(w: World): set<Triple> {
    set sid | sid in w.sessions && Parse(sid).Some? && Parse(sid).value !in KeptRows(w) :: Parse(sid).value
  }

  ghost predicate KeepsPositions(w: World, w': World) {
    forall t :: HasBookmark(w, t) ==> HasBookmark(w', t) && Position(w', t) == Position(w, t)
  }

  function RowsFor(ts: set<Triple>): map<Triple, string> {
    map t | t in ts :: Naming(t)
  }

  function KeysOf(ts: set<Triple>): set<Key> {
    set t | t in ts :: t.key
  }

  /** Backfilling has got from w1 to w by giving workspaces to the sessions of `done`. */
  ghost predicate Progress(w1: World, w: World, done: set<Triple>) {
    ProgressTables(w1, w, done) && ProgressRepos(w1, w, done) && ProgressBookmarks(w1, w, done)
  }

  predicate ProgressRepos(w1: World, w: World, done: set<Triple>) {
    w.repos.Keys <= w1.repos.Keys + KeysOf(done)
  }

  ghost predicate ProgressTables(w1: World, w: World, done: set<Triple>) {
    && w.sessions == w1.sessions && w.rows == w1.rows + RowsFor(done) && w.managed == w1.managed + KeysOf(done)
    && (forall t :: t in done ==> Clean(t) && t !in w1.rows && Anchorable(w1, t))
  }

  ghost predicate ProgressBookmarks(w1: World, w: World, done: set<Triple>) {
    && (forall t :: t in done ==> HasBookmark(w, t))
    && KeepsPositions(w1, w)
    && (forall k :: k in w1.repos ==> k in w.repos)
    && (forall t :: t in done && !HasBookmark(w1, t) ==> Position(w, t) == Base(w1, t.key))
    && (forall k :: k in w.repos && k !in w1.repos ==> HasBookmark(w, MainOf(k)) && Position(w, MainOf(k)) == ROOT)
    && (forall t :: HasBookmark(w, t) && t.key !in w1.repos ==> t in done || t.bm == MAIN)
    && (forall t :: HasBookmark(w, t) && t.key in w1.repos ==> HasBookmark(w1, t) || (t in done && t.bm != MAIN))
  }

  lemma AnchorableStays(w1: World, w: World, done: set<Triple>, t: Triple)
    requires Progress(w1, w, done)
    ensures t !in done ==> (Anchorable(w, t) <==> Anchorable(w1, t))
  {
  }

  lemma CreateOkIff(w: World, t: Triple)
    requires Clean(t) && Naming(t) !in w.rows.Values
    ensures CreateStatus(w, t, Naming(t)).Ok? <==> Anchorable(w, t)
  {
  }

  /** The stores after one successful backfill. */
  lemma CreateStores(w: World, t: Triple)
    requires RowsNamed(w) && Clean(t) && t !in w.rows && Anchorable(w, t)
    ensures var z := Create(w, t, Naming(t));
            && z.sessions == w.sessions && z.rows == w.rows[t := Naming(t)] && z.managed == w.managed + {t.key}
            && KeepsPositions(w, z) && HasBookmark(z, t)
            && z.repos.Keys == w.repos.Keys + {t.key}
            && (t.key !in w.repos ==> HasBookmark(z, MainOf(t.key)) && Position(z, MainOf(t.key)) == ROOT)
            && (!HasBookmark(w, t) ==> Position(z, t) == Base(w, t.key))
            && (forall u :: HasBookmark(z, u) ==> HasBookmark(w, u) || u == t || (u.key !in w.repos && u.bm == MAIN))
  {
    hide Naming, CanCreate, RowsNamed;
    ConflictMeansBound(w, t, t);
    CreateOkIff(w, t);
    var w1 := Effect(w, PostRepo(t.key));
    var w2 := Anchor(w1, t, Tip(MAIN));
    AnchorStores(w1, t);
    var z := Create(w, t, Naming(t));
    assert z == BindTo(w2, t, Naming(t));
    BindStores(w2, t);
    SameBookmarks(w2, z, w);
    assert KeepsPositions(w, w1);
  }

  lemma AnchorStores(w: World, t: Triple)
    requires t.key in w.repos && AnchorStatus(w, t, Tip(MAIN)).Ok?
    ensures var z := Anchor(w, t, Tip(MAIN));
            && z.sessions == w.sessions && z.rows == w.rows && z.managed == w.managed
            && KeepsPositions(w, z) && HasBookmark(z, t) && z.repos.Keys == w.repos.Keys
            && (!HasBookmark(w, t) ==> Position(z, t) == Base(w, t.key))
            && (forall u :: HasBookmark(z, u) ==> HasBookmark(w, u) || u == t)
  {
  }

  lemma BindStores(w: World, t: Triple)
    requires !Taken(w.rows, t, Naming(t))
    ensures var z := BindTo(w, t, Naming(t));
            && z.sessions == w.sessions && z.repos == w.repos
            && z.rows == w.rows[t := Naming(t)] && z.managed == w.managed + {t.key}
  {
  }

  lemma SameBookmarks(w: World, w1: World, w': World)
    requires w1.repos == w.repos
    ensures KeepsPositions(w1, w') <==> KeepsPositions(w, w')
    ensures forall t :: Anchorable(w1, t) <==> Anchorable(w, t)
  {
  }

  lemma ProgressStep(w1: World, w: World, done: set<Triple>, t: Triple)
    requires RowsNamed(w1) && Progress(w1, w, done) && Clean(t) && t !in w1.rows && t !in done && Anchorable(w1, t)
    ensures RowsNamed(w) && Naming(t) !in w.rows.Values && CreateStatus(w, t, Naming(t)).Ok?
    ensures Progress(w1, Create(w, t, Naming(t)), done + {t})
  {
    ProgressNamed(w1, w, done);
    ConflictMeansBound(w, t, t);
    AnchorableStays(w1, w, done, t);
    CreateOkIff(w, t);
    CreateStores(w, t);
    ProgressTo(w1, w, done, t, Create(w, t, Naming(t)));
  }

  lemma ProgressNamed(w1: World, w: World, done: set<Triple>)
    requires RowsNamed(w1) && Progress(w1, w, done)
    ensures RowsNamed(w)
  {
  }

  lemma ProgressTo(w1: World, w: World, done: set<Triple>, t: Triple, z: World)
    requires Progress(w1, w, done) && Clean(t) && t !in w1.rows && Anchorable(w1, t)
    requires z.sessions == w.sessions && z.rows == w.rows[t := Naming(t)] && z.managed == w.managed + {t.key}
    requires KeepsPositions(w, z) && HasBookmark(z, t) && z.repos.Keys == w.repos.Keys + {t.key}
    requires t.key !in w.repos ==> HasBookmark(z, MainOf(t.key)) && Position(z, MainOf(t.key)) == ROOT
    requires !HasBookmark(w, t) ==> Position(z, t) == Base(w, t.key)
    requires forall u :: HasBookmark(z, u) ==> HasBookmark(w, u) || u == t || (u.key !in w.repos && u.bm == MAIN)
    ensures Progress(w1, z, done + {t})
  {
    hide ProgressTables, ProgressBookmarks, KeepsPositions;
    TablesTo(w1, w, done, t, z);
    BookmarksTo(w1, w, done, t, z);
    assert KeysOf(done + {t}) == KeysOf(done) + {t.key};
  }

  lemma RowsForPlus(rows: map<Triple, string>, done: set<Triple>, t: Triple)
    ensures rows + RowsFor(done + {t}) == (rows + RowsFor(done))[t := Naming(t)]
  {
  }

  lemma TablesTo(w1: World, w: World, done: set<Triple>, t: Triple, z: World)
    requires ProgressTables(w1, w, done) && Clean(t) && t !in w1.rows && Anchorable(w1, t)
    requires z.sessions == w.sessions && z.rows == w.rows[t := Naming(t)] && z.managed == w.managed + {t.key}
    ensures ProgressTables(w1, z, done + {t})
  {
    RowsForPlus(w1.rows, done, t);
    assert z.managed == w1.managed + KeysOf(done + {t});
  }

  lemma BookmarksTo(w1: World, w: World, done: set<Triple>, t: Triple, z: World)
    requires ProgressBookmarks(w1, w, done) && Anchorable(w1, t)
    requires KeepsPositions(w, z) && HasBookmark(z, t) && z.repos.Keys == w.repos.Keys + {t.key}
    requires t.key !in w.repos ==> HasBookmark(z, MainOf(t.key)) && Position(z, MainOf(t.key)) == ROOT
    requires !HasBookmark(w, t) ==> Position(z, t) == Base(w, t.key)
    requires forall u :: HasBookmark(z, u) ==> HasBookmark(w, u) || u == t || (u.key !in w.repos && u.bm == MAIN)
    ensures ProgressBookmarks(w1, z, done + {t})
  {
    assert KeepsPositions(w1, z) by {
      forall u | HasBookmark(w1, u) ensures HasBookmark(z, u) && Position(z, u) == Position(w1, u) {
        assert HasBookmark(w, u);
      }
    }
    forall k | k in z.repos && k !in w1.repos ensures HasBookmark(z, MainOf(k)) && Position(z, MainOf(k)) == ROOT {
      if k in w.repos { assert HasBookmark(w, MainOf(k)); }
    }
    assert t.key in w.repos && !HasBookmark(w, t) ==> Base(w, t.key) == Base(w1, t.key);
    forall u | u in done + {t} && !HasBookmark(w1, u) ensures Position(z, u) == Base(w1, u.key) {
      if u in done || HasBookmark(w, u) { assert HasBookmark(w, u) && Position(z, u) == Position(w, u); }
    }
  }

  /** The triples a visiting order still has to deal with. */
  function ToFill(rest: seq<string>, mapped: set<string>): set<Triple> {
    set name | name in rest && !Skips(name, mapped) :: Parse(name).value
  }

  lemma ToFillHead(rest: seq<string>, mapped: set<string>)
    requires rest != []
    ensures ToFill(rest, mapped)
            == (if Skips(rest[0], mapped) then {} else {Parse(rest[0]).value}) + ToFill(rest[1..], mapped)
  {
    assert forall n :: n in rest <==> n == rest[0] || n in rest[1..];
  }

  /** The backfill loop succeeds exactly if everything it has to anchor can be, and then leaves the same
      stores whatever the order. */
  lemma {:induction false} FillAll(w1: World, w: World, done: set<Triple>, rest: seq<string>, mapped: set<string>)
    requires RowsNamed(w1) && Progress(w1, w, done) && mapped == w1.rows.Values
    ensures FilledStatus(w, rest, mapped).Ok? <==> AllAnchorable(w1, ToFill(rest, mapped))
    ensures FilledStatus(w, rest, mapped).Ok? ==> Progress(w1, Filled(w, rest, mapped), done + ToFill(rest, mapped))
    decreases |rest|, 1
  {
    if rest == [] {
      assert done + ToFill(rest, mapped) == done;
    } else if Skips(rest[0], mapped) {
      ToFillHead(rest, mapped);
      FillAll(w1, w, done, rest[1..], mapped);
      assert ToFill(rest, mapped) == ToFill(rest[1..], mapped);
    } else {
      FillHead(w1, w, done, rest, mapped);
    }
  }

  lemma {:induction false} FillHead(w1: World, w: World, done: set<Triple>, rest: seq<string>, mapped: set<string>)
    requires RowsNamed(w1) && Progress(w1, w, done) && mapped == w1.rows.Values
    requires rest != [] && !Skips(rest[0], mapped)
    ensures FilledStatus(w, rest, mapped).Ok? <==> AllAnchorable(w1, ToFill(rest, mapped))
    ensures FilledStatus(w, rest, mapped).Ok? ==> Progress(w1, Filled(w, rest, mapped), done + ToFill(rest, mapped))
    decreases |rest|, 0
  {
    var t, w2 := FillStep(w1, w, done, rest, mapped);
    ToFillHead(rest, mapped);
    if Anchorable(w1, t) { FillAll(w1, w2, done + {t}, rest[1..], mapped); }
    FillJoin(w1, Filled(w2, rest[1..], mapped), FilledStatus(w, rest, mapped).Ok?, done, t, ToFill(rest[1..], mapped));
  }

  lemma FillJoin(w1: World, z: World, ok: bool, done: set<Triple>, t: Triple, todo: set<Triple>)
    requires Anchorable(w1, t) ==> (ok <==> AllAnchorable(w1, todo))
    requires ok ==> Anchorable(w1, t) && Progress(w1, z, done + {t} + todo)
    ensures ok <==> AllAnchorable(w1, {t} + todo)
    ensures ok ==> Progress(w1, z, done + ({t} + todo))
  {
    assert done + {t} + todo == done + ({t} + todo);
    assert t in {t} + todo;
    assert todo <= {t} + todo;
  }

  lemma FillStep(w1: World, w: World, done: set<Triple>, rest: seq<string>, mapped: set<string>)
      returns (t: Triple, w2: World)
    requires RowsNamed(w1) && Progress(w1, w, done) && mapped == w1.rows.Values
    requires rest != [] && !Skips(rest[0], mapped)
    ensures Parse(rest[0]) == Some(t)
    ensures if Anchorable(w1, t)
            then FilledStatus(w, rest, mapped) == FilledStatus(w2, rest[1..], mapped)
              && Filled(w, rest, mapped) == Filled(w2, rest[1..], mapped) && Progress(w1, w2, done + {t})
            else !FilledStatus(w, rest, mapped).Ok?
  {
    t := FillNext(w1, w, done, rest[0]);
    w2 := Create(w, t, rest[0]);
  }

  lemma FillNext(w1: World, w: World, done: set<Triple>, name: string) returns (t: Triple)
    requires RowsNamed(w1) && Progress(w1, w, done) && !Skips(name, w1.rows.Values)
    ensures Parse(name) == Some(t)
    ensures CreateStatus(w, t, name).Ok? <==> Anchorable(w1, t)
    ensures Anchorable(w1, t) ==> Progress(w1, Create(w, t, name), done + {t})
  {
    t := Parse(name).value;
    ParseExactly(name, t);
    ConflictMeansBound(w1, t, t);
    FillOne(w1, w, done, t);
  }

  lemma CreateBound(w: World, t: Triple)
    requires t in w.rows && w.rows[t] == Naming(t)
    ensures Create(w, t, Naming(t)) == w && CreateStatus(w, t, Naming(t)) == Ok
  {
  }

  lemma FillOne(w1: World, w: World, done: set<Triple>, t: Triple)
    requires RowsNamed(w1) && Progress(w1, w, done) && Clean(t) && t !in w1.rows
    ensures CreateStatus(w, t, Naming(t)).Ok? <==> Anchorable(w1, t)
    ensures Anchorable(w1, t) ==> Progress(w1, Create(w, t, Naming(t)), done + {t})
  {
    hide Anchorable, Create, CreateStatus, KeepsPositions, Naming, ProgressBookmarks;
    if t in done {
      CreateBound(w, t);
      assert done + {t} == done;
    } else if Anchorable(w1, t) {
      ProgressStep(w1, w, done, t);
    } else {
      ProgressNamed(w1, w, done);
      ConflictMeansBound(w, t, t);
      AnchorableStays(w1, w, done, t);
      CreateOkIff(w, t);
    }
  }

  // ---- one pass ----

  lemma StartProgress(w: World)
    ensures Progress(w, w, {})
  {
    assert w.rows + RowsFor({}) == w.rows;
    assert w.managed + KeysOf({}) == w.managed;
  }

  /** The sessions a pass has to fill do not depend on the order of the session map. */
  lemma ToFillIsMissing(w: World, w1: World, order: seq<string>)
    requires RowsNamed(w) && RowsCut(w, BadRows(w, w.managed), w1) && Enumerates(order, w.sessions)
    ensures ToFill(order, w1.rows.Values) == Missing(w) && RowsNamed(w1)
  {
    assert w1.rows == KeptRows(w);
    forall name | Parse(name).Some? ensures name in w1.rows.Values <==> Parse(name).value in w1.rows {
      var t := Parse(name).value;
      ParseExactly(name, t);
      ConflictMeansBound(w1, t, t);
    }
  }

  lemma AnchorableAfter(w1: World, w: World, done: set<Triple>, t: Triple)
    requires Progress(w1, w, done) && Anchorable(w1, t)
    ensures Anchorable(w, t)
  {
    if t in done { assert HasBookmark(w, t); }
    else { AnchorableStays(w1, w, done, t); }
  }

  /** A repository a pass creates comes with `main`. */
  predicate BringsMain(w: World, t: Triple) {
    t.bm == MAIN && t.key !in w.repos && t.key in KeysOf(Missing(w))
  }

  /** Apart from the sessions backfilled, only that adds a bookmark. */
  ghost predicate MarksOnly(w: World, w': World) {
    forall t :: t !in Missing(w) ==> (HasBookmark(w', t) <==> HasBookmark(w, t) || BringsMain(w, t))
  }

  lemma FilledMarks(w: World, w1: World, w': World)
    requires w1.repos == w.repos && ProgressRepos(w1, w', Missing(w)) && ProgressBookmarks(w1, w', Missing(w))
    ensures MarksOnly(w, w')
  {
    forall t | t !in Missing(w) ensures HasBookmark(w', t) <==> HasBookmark(w, t) || BringsMain(w, t) {
      if BringsMain(w, t) {
        var u :| u in Missing(w) && u.key == t.key;
        assert HasBookmark(w', u);
      }
    }
  }

  /** What one undisturbed fault-free pass comes to, in any iteration order. */
  lemma OnePass(w: World, w': World, o: Outcome)
    requires RowsNamed(w) && Finishes(w, PassSessions, w', o)
    ensures o == Status(if AllAnchorable(w, Missing(w)) then Ok else Fail(502))
    ensures o == Status(Ok) ==>
              && w'.sessions == w.sessions && w'.rows == KeptRows(w) + RowsFor(Missing(w))
              && w'.managed == w.managed + KeysOf(Missing(w)) && KeepsPositions(w, w')
              && (forall t :: t in Missing(w) ==> HasBookmark(w', t))
              && (forall t :: t in Missing(w) && !HasBookmark(w, t) ==> Position(w', t) == Base(w, t.key))
              && MarksOnly(w, w') && forall t :: Anchorable(w, t) ==> Anchorable(w', t)
  {
    hide Finishes, MarksOnly, Naming, Parse;
    var w1, order := PassFinishes(w, w', o);
    ToFillIsMissing(w, w1, order);
    StartProgress(w1);
    FillAll(w1, w1, {}, order, w1.rows.Values);
    assert {} + Missing(w) == Missing(w);
    SameBookmarks(w, w1, w');
    if o == Status(Ok) {
      FilledMarks(w, w1, w');
      forall t | Anchorable(w1, t) ensures Anchorable(w', t) { AnchorableAfter(w1, w', Missing(w), t); }
    }
  }

  /** The live derived sessions, by workspace. */
  lemma MissingExactly(w: World, t: Triple)
    ensures t in Missing(w) <==> Clean(t) && Naming(t) in w.sessions && t !in KeptRows(w)
  {
    ParseExactly(Naming(t), t);
    if t in Missing(w) {
      var sid :| sid in w.sessions && Parse(sid).Some? && Parse(sid).value == t;
      ParseExactly(sid, t);
    }
  }

  /** Every live derived session has a row. */
  ghost predicate AllMapped(w: World) {
    forall t :: Clean(t) && Naming(t) in w.sessions ==> t in w.rows
  }

  /** The rows of managed repositories are exactly the live derived sessions, each with its bookmark, and no
      live derived session is without a row anywhere. */
  ghost predicate Settled(w: World) {
    && AllMapped(w)
    && forall t: Triple :: t.key in w.managed ==>
      && (t in w.rows <==> Clean(t) && Naming(t) in w.sessions)
      && (t in w.rows ==> w.rows[t] == Naming(t) && HasBookmark(w, t))
  }

  /** One pass gives every live derived session a row, and leaves no row without a bookmark or session in any
      repository that was managed when it started. */
  lemma PassHeals(w: World, w': World)
    requires RowsNamed(w) && Finishes(w, PassSessions, w', Status(Ok))
    ensures RowsNamed(w') && AllMapped(w') && BadRows(w', w.managed) == {}
    ensures forall t :: t in w'.rows ==> t in w.rows || (Clean(t) && Naming(t) in w.sessions)
  {
    hide Finishes, HasBookmark, Anchorable;
    OnePass(w, w', Status(Ok));
    forall t ensures t in Missing(w) <==> Clean(t) && Naming(t) in w.sessions && t !in KeptRows(w) {
      MissingExactly(w, t);
    }
  }

  lemma SettledIff(w: World)
    requires RowsNamed(w) && AllMapped(w)
    ensures Settled(w) <==> BadRows(w, w.managed) == {}
  {
    assert Settled(w) ==> BadRows(w, w.managed) == {};
    if BadRows(w, w.managed) == {} {
      forall t | t in w.rows && t.key in w.managed ensures HasBookmark(w, t) && w.rows[t] in w.sessions {
        assert t !in BadRows(w, w.managed);
      }
    }
  }

  /** A row in a repository not managed so far, which the pass will mark managed, that has no live session, or no
      bookmark and will not get one. */
  predicate LeftBad(w: World, t: Triple) {
    && t in w.rows && t.key !in w.managed && t.key in KeysOf(Missing(w))
    && (w.rows[t] !in w.sessions || (!HasBookmark(w, t) && !BringsMain(w, t)))
  }

  lemma BadAfter(w: World, w': World, t: Triple)
    requires RowsNamed(w) && Finishes(w, PassSessions, w', Status(Ok))
    ensures t in BadRows(w', w'.managed) <==> LeftBad(w, t)
  {
    hide Finishes, Anchorable, KeepsPositions;
    OnePass(w, w', Status(Ok));
    PassHeals(w, w');
    MissingExactly(w, t);
    assert t !in BadRows(w', w.managed);
  }

  /** A single pass is enough if and only if there is no such row. */
  lemma OnePassSettlesIff(w: World, w': World)
    requires RowsNamed(w) && Finishes(w, PassSessions, w', Status(Ok))
    ensures Settled(w') <==> forall t :: !LeftBad(w, t)
  {
    hide Finishes, AllMapped, BadRows, LeftBad, RowsNamed;
    PassHeals(w, w');
    SettledIff(w');
    forall t ensures t in BadRows(w', w'.managed) <==> LeftBad(w, t) { BadAfter(w, w', t); }
  }

  // ---- the second pass ----

  /** What a second pass has to backfill lies in repositories that are managed by then. */
  lemma MissingAgain(w: World, w1: World)
    requires RowsNamed(w) && Finishes(w, PassSessions, w1, Status(Ok))
    ensures KeysOf(Missing(w1)) <= w1.managed
  {
    PassHeals(w, w1);
    forall t | t in Missing(w1) ensures t.key in w1.managed { MissingExactly(w1, t); }
  }

  /** A second pass leaves the managed repositories alone and settles them all. */
  lemma SecondPass(w: World, w1: World, w2: World)
    requires RowsNamed(w) && Finishes(w, PassSessions, w1, Status(Ok)) && Finishes(w1, PassSessions, w2, Status(Ok))
    ensures RowsNamed(w2) && Settled(w2) && w2.managed == w1.managed && w2.sessions == w.sessions
  {
    hide Finishes;
    PassHeals(w, w1);
    MissingAgain(w, w1);
    OnePass(w, w1, Status(Ok));
    OnePass(w1, w2, Status(Ok));
    PassHeals(w1, w2);
    SettledIff(w2);
  }

  // ---- the third pass ----

  lemma SettledNothingToDo(w: World)
    requires RowsNamed(w) && Settled(w)
    ensures BadRows(w, w.managed) == {} && Missing(w) == {}
  {
    SettledIff(w);
    assert KeptRows(w) == w.rows;
    forall t ensures t !in Missing(w) { MissingExactly(w, t); }
  }

  lemma {:induction false} NothingToFill(w: World, rest: seq<string>, mapped: set<string>)
    requires ToFill(rest, mapped) == {}
    ensures Filled(w, rest, mapped) == w && FilledStatus(w, rest, mapped) == Ok
  {
    if rest != [] {
      ToFillHead(rest, mapped);
      NothingToFill(w, rest[1..], mapped);
    }
  }

  /** In a settled state a pass changes nothing at all. */
  lemma SettledIsStable(w: World, w': World, o: Outcome)
    requires RowsNamed(w) && Settled(w) && Finishes(w, PassSessions, w', o)
    ensures w' == w && o == Status(Ok)
  {
    SettledNothingToDo(w);
    var w1, order := PassFinishes(w, w', o);
    ToFillIsMissing(w, w1, order);
    NothingToFill(w1, order, w1.rows.Values);
  }

  // ---- the theorem ----

  /** A repository a backfill needs has `main`, or the bookmark, or does not exist yet; for every live session. */
  ghost predicate AllBackfillable(w: World) {
    forall t :: Clean(t) && Naming(t) in w.sessions ==> Anchorable(w, t)
  }

  lemma BackfillableMissing(w: World)
    requires AllBackfillable(w)
    ensures AllAnchorable(w, Missing(w))
  {
    forall t | t in Missing(w) ensures Anchorable(w, t) { MissingExactly(w, t); }
  }

  lemma BackfillableStays(w: World, w': World)
    requires RowsNamed(w) && AllBackfillable(w) && Finishes(w, PassSessions, w', Status(Ok))
    ensures AllBackfillable(w')
  {
    OnePass(w, w', Status(Ok));
  }

  /** Such a row whose session is live is left for the second pass. */
  predicate LeftLive(w: World, t: Triple) {
    LeftBad(w, t) && w.rows[t] in w.sessions
  }

  ghost predicate LeftAnchorable(w: World) {
    forall t :: LeftLive(w, t) ==> Anchorable(w, t)
  }

  /** What the second pass has to backfill, told from the state before the first. */
  lemma SecondMissing(w: World, w1: World, t: Triple)
    requires RowsNamed(w) && Finishes(w, PassSessions, w1, Status(Ok))
    ensures t in Missing(w1) <==> LeftLive(w, t)
  {
    hide Finishes, Anchorable, KeepsPositions, HasBookmark;
    OnePass(w, w1, Status(Ok));
    PassHeals(w, w1);
    MissingExactly(w, t);
    MissingExactly(w1, t);
    BadAfter(w, w1, t);
  }

  lemma SecondAnchorable(w: World, w1: World, t: Triple)
    requires RowsNamed(w) && Finishes(w, PassSessions, w1, Status(Ok)) && LeftLive(w, t)
    ensures Anchorable(w1, t) <==> Anchorable(w, t)
  {
    hide Finishes, KeepsPositions;
    OnePass(w, w1, Status(Ok));
    MissingExactly(w, t);
    assert t !in Missing(w);
    if t.key in w.repos && MainOf(t.key) in Missing(w) { assert Anchorable(w, MainOf(t.key)); }
  }

  lemma SecondPassIff(w: World, w1: World, w2: World, o2: Outcome)
    requires RowsNamed(w) && Finishes(w, PassSessions, w1, Status(Ok)) && Finishes(w1, PassSessions, w2, o2)
    ensures o2 == Status(Ok) <==> LeftAnchorable(w)
  {
    hide Finishes, Anchorable, LeftLive, RowsNamed;
    PassHeals(w, w1);
    OnePass(w1, w2, o2);
    forall t ensures t in Missing(w1) <==> LeftLive(w, t) { SecondMissing(w, w1, t); }
    forall t | t in Missing(w1) ensures Anchorable(w1, t) <==> Anchorable(w, t) { SecondAnchorable(w, w1, t); }
  }

  /** Self-stabilisation. From any named state and whatever the order of the session map: the first pass succeeds
      exactly if what is missing can be anchored, and the second exactly if the rows it is left can; then the state
      is settled, and a third pass succeeds and changes nothing. */
  lemma Stabilises(w: World, w1: World, o1: Outcome, w2: World, o2: Outcome, w3: World, o3: Outcome)
    requires RowsNamed(w)
    requires Finishes(w, PassSessions, w1, o1) && Finishes(w1, PassSessions, w2, o2)
    requires Finishes(w2, PassSessions, w3, o3)
    ensures o1 == Status(Ok) <==> AllAnchorable(w, Missing(w))
    ensures o1 == Status(Ok) && o2 == Status(Ok) <==> AllAnchorable(w, Missing(w)) && LeftAnchorable(w)
    ensures AllBackfillable(w) ==> o1 == Status(Ok) && o2 == Status(Ok)
    ensures o1 == Status(Ok) && o2 == Status(Ok) ==>
              Settled(w2) && w2.sessions == w.sessions && w3 == w2 && o3 == Status(Ok)
  {
    hide Finishes, LeftAnchorable, AllBackfillable, AllAnchorable, Settled;
    OnePass(w, w1, o1);
    if AllBackfillable(w) { BackfillableMissing(w); }
    if o1 == Status(Ok) {
      SecondPassIff(w, w1, w2, o2);
      if AllBackfillable(w) { BackfillableLeft(w); }
      if o2 == Status(Ok) {
        SecondPass(w, w1, w2);
        SettledIsStable(w2, w3, o3);
      }
    }
  }

  lemma BackfillableLeft(w: World)
    requires RowsNamed(w) && AllBackfillable(w)
    ensures LeftAnchorable(w)
  {
  }
}
