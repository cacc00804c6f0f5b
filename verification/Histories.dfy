/** Runs of events handled in order and without faults, commits in between: at every point the stores show
    exactly what the abstract operations say (events_sub.go). */
module Histories {
  import opened Names
  import opened Stores
  import opened Handlers
  import opened BigStep
  import opened Refinement

  /** The operation really happens, an event as some fault-free run of its handler. */
  ghost predicate Happens(w: World, key: Key, op: Op, w': World) {
    if op.CommitTo? then key in w.repos && w' == SetBookmark(w, Triple(key, op.b), op.c)
    else exists o :: Finishes(w, OnEvent(EventOf(key, op)), w', o)
  }

  lemma OpRefines(w: World, key: Key, a: Book, op: Op, w': World)
    requires Refines(w, key, a) && Fits(a, op) && Happens(w, key, op, w')
    ensures Refines(w', key, Apply(a, op))
  {
    if op.CommitTo? {
      CommitRefines(w, key, a, op.b, op.c);
    } else {
      var e := EventOf(key, op);
      var o :| Finishes(w, OnEvent(e), w', o);
      EventFinishes(w, e, w', o);
      EventRefines(w, key, a, op);
    }
  }

  ghost predicate Plays(ws: seq<World>, key: Key, ops: seq<Op>) {
    |ws| == |ops| + 1 && forall k :: 0 <= k < |ops| ==> Happens(ws[k], key, ops[k], ws[k + 1])
  }

  predicate Writes(books: seq<Book>, ops: seq<Op>) {
    |books| == |ops| + 1
    && forall k :: 0 <= k < |ops| ==> Fits(books[k], ops[k]) && books[k + 1] == Apply(books[k], ops[k])
  }

  /** At every point of the run the stores show what the abstract operations say. */
  lemma {:induction false} RunRefinesMap(ws: seq<World>, books: seq<Book>, key: Key, ops: seq<Op>, n: nat)
    requires Plays(ws, key, ops) && Writes(books, ops) && Refines(ws[0], key, books[0]) && n <= |ops|
    ensures Refines(ws[n], key, books[n])
  {
    if n > 0 {
      RunRefinesMap(ws, books, key, ops, n - 1);
      assert Happens(ws[n - 1], key, ops[n - 1], ws[n - 1 + 1]);
      OpRefines(ws[n - 1], key, books[n - 1], ops[n - 1], ws[n]);
    }
  }
}
