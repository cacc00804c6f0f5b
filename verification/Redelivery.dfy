/** Events are delivered at least once: any number of deliveries cut short, the process crashing each time,
    and then one in full (events_sub.go). */
module Redelivery {
  import opened Names
  import opened Stores
  import opened Handlers
  import opened NamingInvariant
  import opened BigStep
  import opened Recovery

  /** xs are the stores where one delivery after another was cut short, each started after the crash before. */
  ghost predicate CutDeliveries(w: World, e: Event, xs: seq<World>)
    decreases |xs|
  {
    xs != [] ==> Cut(w, OnEvent(e), xs[0]) && CutDeliveries(Crashed(xs[0]), e, xs[1..])
  }

  /** The stores the full delivery starts from. */
  function Left(w: World, xs: seq<World>): World {
    if xs == [] then w else Crashed(xs[|xs| - 1])
  }

  lemma CutStaysGood(w: World, e: Event, x: World)
    requires GoodWorld(w) && Cut(w, OnEvent(e), x)
    ensures GoodWorld(Crashed(x))
  {
    var evs: seq<Ev>, pc' :| Path(w, OnEvent(e), evs, x, pc') && (evs == [] || FaultFree(evs[..|evs| - 1]));
    ProperStart(OnEvent(e));
    ProperPath(w, OnEvent(e), evs, x, pc');
  }

  lemma LeftAfter(w: World, xs: seq<World>)
    requires xs != []
    ensures Left(Crashed(xs[0]), xs[1..]) == Left(w, xs)
  {
  }

  /** Created, forked and deleted events: however many deliveries were cut, and wherever, the full one reaches
      the rows, bookmarks, sessions and status of a single uninterrupted run. */
  lemma {:induction false} RedeliveriesFinish(w: World, e: Event, xs: seq<World>, w': World, o: Outcome)
    requires GoodWorld(w) && !e.Renamed? && CutDeliveries(w, e, xs) && Finishes(Left(w, xs), OnEvent(e), w', o)
    ensures SameStores(w', Handle(w, e)) && o == Status(HandleStatus(w, e))
    decreases |xs|
  {
    hide Cut, Finishes;
    if xs == [] {
      EventFinishes(w, e, w', o);
    } else {
      CutStaysGood(w, e, xs[0]);
      LeftAfter(w, xs);
      RedeliveriesFinish(Crashed(xs[0]), e, xs[1..], w', o);
      HandleSame(Crashed(xs[0]), xs[0], e);
      CutThenAgain(w, e, xs[0]);
    }
  }

  // ---- renames ----

  /** The last delivery cut left the row moved and the old bookmark in place. */
  predicate OrphanLeft(w: World, from: Triple, xs: seq<World>) {
    xs != [] && LeavesOrphan(w, from, xs[|xs| - 1])
  }

  function RenameOf(from: Triple, to: Triple): Event {
    Renamed(Naming(from), Naming(to))
  }

  lemma RenameStarts(from: Triple, to: Triple)
    requires Clean(from) && Clean(to) && from.key == to.key
    ensures OnEvent(RenameOf(from, to)) == RenameGet(from, to)
  {
    ParseExactly(Naming(from), from);
    ParseExactly(Naming(to), to);
  }

  /** Once the row has moved, further deliveries change nothing. */
  lemma {:induction false} CutsAfterMove(w: World, from: Triple, to: Triple, xs: seq<World>)
    requires Clean(from) && Clean(to) && from.key == to.key
    requires from !in w.rows && Naming(to) in w.rows.Values && CutDeliveries(w, RenameOf(from, to), xs)
    ensures SameStores(Left(w, xs), w)
    decreases |xs|
  {
    hide Cut;
    if xs != [] {
      RenameStarts(from, to);
      RenameCut(w, from, to, xs[0]);
      CutsAfterMove(Crashed(xs[0]), from, to, xs[1..]);
      LeftAfter(w, xs);
    }
  }

  /** How the first delivery cut relates to an uninterrupted run. */
  lemma FirstCut(w: World, from: Triple, to: Triple, x: World)
    requires RowsNamed(w) && Clean(from) && Clean(to) && from.key == to.key && from != to
    requires Cut(w, RenameGet(from, to), x)
    ensures var z, full := Rename(Crashed(x), from, to), Rename(w, from, to);
            && z.rows == full.rows && z.sessions == full.sessions
            && RenameStatus(Crashed(x), from, to) == RenameStatus(w, from, to)
            && (LeavesOrphan(w, from, x) ==> HasBookmark(z, from) && from !in z.rows && !HasBookmark(full, from)
                                             && UnsetBookmark(z, from).repos == full.repos)
            && (!LeavesOrphan(w, from, x) ==> z.repos == full.repos)
    ensures from in w.rows && from !in x.rows ==> to in x.rows && x.rows[to] == Naming(to)
    ensures from !in w.rows ==> from !in x.rows
  {
    hide Cut;
    RenameCut(w, from, to, x);
    RenameSame(Crashed(x), x, from, to);
    RenameAgain(w, from, to, x);
    if from !in w.rows { StayUnmapped(w, from, to, x); }
    else if from !in x.rows { RenameFromMiddle(w, from, to, x); }
  }

  /** Where the later deliveries start, the orphan is settled: it is there already, or still to come. */
  lemma OrphanOf(w: World, from: Triple, to: Triple, xs: seq<World>)
    requires RowsNamed(w) && Clean(from) && Clean(to) && from.key == to.key && from != to
    requires xs != [] && CutDeliveries(w, RenameOf(from, to), xs)
    ensures OrphanLeft(w, from, xs) <==> LeavesOrphan(w, from, xs[0]) || OrphanLeft(Crashed(xs[0]), from, xs[1..])
    ensures LeavesOrphan(w, from, xs[0]) ==> !OrphanLeft(Crashed(xs[0]), from, xs[1..])
  {
    hide Cut, Rename;
    RenameStarts(from, to);
    FirstCut(w, from, to, xs[0]);
    LeftAfter(w, xs);
    if from in w.rows && from !in xs[0].rows { CutsAfterMove(Crashed(xs[0]), from, to, xs[1..]); }
  }

  /** Renames: however many deliveries were cut, and wherever, the full one reaches the rows, sessions and status
      of a single uninterrupted run, and its bookmarks too unless one was cut between moving the row and dropping
      the old bookmark; then just that bookmark is left over, without a row. */
  lemma {:induction false} RenameRedeliveriesFinish(w: World, from: Triple, to: Triple, xs: seq<World>,
                                                    w': World, o: Outcome)
    requires GoodWorld(w) && Clean(from) && Clean(to) && from.key == to.key && from != to
    requires CutDeliveries(w, RenameOf(from, to), xs) && Finishes(Left(w, xs), OnEvent(RenameOf(from, to)), w', o)
    ensures var full := Handle(w, RenameOf(from, to));
            && w'.rows == full.rows && w'.sessions == full.sessions && o == Status(HandleStatus(w, RenameOf(from, to)))
            && (w'.repos == full.repos <==> !OrphanLeft(w, from, xs))
            && (OrphanLeft(w, from, xs) ==>
                  HasBookmark(w', from) && from !in w'.rows && UnsetBookmark(w', from).repos == full.repos)
    decreases |xs|
  {
    hide Cut, Finishes, Rename, RenameStatus, LeavesOrphan;
    RenameStarts(from, to);
    if xs == [] {
      EventFinishes(w, RenameOf(from, to), w', o);
    } else {
      var x := xs[0];
      CutStaysGood(w, RenameOf(from, to), x);
      LeftAfter(w, xs);
      RenameRedeliveriesFinish(Crashed(x), from, to, xs[1..], w', o);
      FirstCut(w, from, to, x);
      OrphanOf(w, from, to, xs);
    }
  }
}
