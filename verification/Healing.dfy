/** What undisturbed passes repair: the work a faulty run of passes unbound, and a fork whose row was lost. */
module Healing {
  import opened Names
  import opened Stores
  import opened Handlers
  import opened Interleaving
  import opened NamingInvariant
  import opened Spared
  import opened Pin
  import opened BigStep
  import opened Stabilise

  lemma HealsDropsNot(pc: Pc)
    requires Heals(pc) && !pc.End?
    ensures !Request(pc).DropBookmark?
  {
  }

  /** Passes never make a backfill impossible, whichever of their calls fail. */
  lemma {:induction false} PassesKeepBackfillable(b: seq<Sys>, acts: seq<Act>, n: nat)
    requires PassesOnly(b, acts) && n < |b| && AllBackfillable(b[0].w)
    ensures AllBackfillable(b[n].w)
  {
    if n > 0 {
      PassesKeepBackfillable(b, acts, n - 1);
      PassesPreserveWork(b, acts, n - 1, MainOf(Key("", "")));
      PassesPreserveWork(b, acts, n, MainOf(Key("", "")));
      assert Next(b[n - 1], acts[n - 1], b[n - 1 + 1]);
      forall t | Clean(t) && Naming(t) in b[n].w.sessions ensures Anchorable(b[n].w, t) {
        BackfillableNext(b[n - 1], acts[n - 1], b[n], t);
      }
    }
  }

  lemma BackfillableNext(s: Sys, act: Act, s': Sys, t: Triple)
    requires Next(s, act, s') && Anchorable(s.w, t)
    requires act.Env? ==> act.repos == s.w.repos
    requires act.Call? ==> Heals(s.procs[act.i])
    ensures Anchorable(s'.w, t)
  {
    if act.Call? {
      HealsDropsNot(s.procs[act.i]);
    }
  }

  /** Reconciliation preserves work. Take any run of passes, with any of their calls failing or cut short,
      and whatever rows they dropped; then one undisturbed pass binds every live session's bookmark again,
      at the commit it was at to begin with. */
  lemma WorkIsRebound(b: seq<Sys>, acts: seq<Act>, n: nat, t: Triple, w': World, o: Outcome)
    requires PassesOnly(b, acts) && n < |b| && Good(b[0]) && AllBackfillable(b[0].w)
    requires Clean(t) && Naming(t) in b[0].w.sessions && HasBookmark(b[0].w, t)
    requires Finishes(b[n].w, PassSessions, w', o)
    ensures o == Status(Ok) && w'.sessions == b[0].w.sessions
    ensures t in w'.rows && w'.rows[t] == Naming(t) && Stands(w', t, Position(b[0].w, t))
  {
    NamingHolds(b, acts, n);
    PassesPreserveWork(b, acts, n, t);
    PassesKeepBackfillable(b, acts, n);
    BackfillableMissing(b[n].w);
    OnePass(b[n].w, w', o);
    PassHeals(b[n].w, w');
  }

  /** The fork pin, to the end: after any interleaving the theorem on pinning allows, once the new session
      exists, an undisturbed pass that succeeds has the new bookmark bound to it, still at its base revision. */
  lemma ForkIsBound(b: seq<Sys>, acts: seq<Act>, n: nat, f: Fork, w': World)
    requires FreshName(f) && Behavior(b, acts) && n < |b| && PinSafe(b[0], f)
    requires forall k :: 0 <= k < |acts| ==> LeavesAlone(b[k], acts[k], f)
    requires f.Sid() in b[n].w.sessions && Finishes(b[n].w, PassSessions, w', Status(Ok))
    ensures f.bm in w'.rows && w'.rows[f.bm] == f.Sid() && Pinned(w', f)
  {
    ForkIsPinned(b, acts, n, f);
    OnePass(b[n].w, w', Status(Ok));
    PassHeals(b[n].w, w');
  }

  /** Whatever came before: events lost, repeated or reordered, calls failed, handlers cut short, interleaved or
      crashed, bookmarks and sessions changed behind the service's back. Two undisturbed passes settle the
      state and a third changes nothing. */
  lemma EveryRunStabilises(b: seq<Sys>, acts: seq<Act>, n: nat, w1: World, o1: Outcome, w2: World, o2: Outcome,
                           w3: World, o3: Outcome)
    requires Behavior(b, acts) && Good(b[0]) && n < |b| && AllBackfillable(b[n].w)
    requires Finishes(b[n].w, PassSessions, w1, o1) && Finishes(w1, PassSessions, w2, o2)
    requires Finishes(w2, PassSessions, w3, o3)
    ensures o1 == o2 == o3 == Status(Ok) && Settled(w2) && w2.sessions == b[n].w.sessions && w3 == w2
  {
    hide Finishes;
    NamingHolds(b, acts, n);
    Stabilises(b[n].w, w1, o1, w2, o2, w3, o3);
  }

  /** What a lost event costs: the session gets its workspace all the same, but anchored at `main`. */
  lemma LostEventAnchorsAtMain(w: World, t: Triple, w': World)
    requires RowsNamed(w) && Clean(t) && Naming(t) in w.sessions && t !in w.rows && !HasBookmark(w, t)
    requires Finishes(w, PassSessions, w', Status(Ok))
    ensures t in w'.rows && w'.rows[t] == Naming(t) && Stands(w', t, Base(w, t.key))
  {
    MissingExactly(w, t);
    OnePass(w, w', Status(Ok));
  }
}
