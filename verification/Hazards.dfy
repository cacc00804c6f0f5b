/** Exactly when a fault-free rename or delete worksheet leaves a row without its bookmark. */
module Hazards {
  import opened Names
  import opened Stores
  import opened Handlers
  import opened BigStep
  import opened Recovery

  /** A rename of a session with a workspace leaves a dangling row if and only if it renames the session to itself. */
  lemma RenameDanglesIffSelf(w: World, from: Triple, to: Triple, w': World, o: Outcome)
    requires Sound(w) && Clean(from) && Clean(to) && from.key == to.key
    requires from in w.rows && HasBookmark(w, from)
    requires Finishes(w, OnEvent(Renamed(Naming(from), Naming(to))), w', o)
    ensures Dangling(w', to) <==> from == to
    ensures from == to ==> o == Status(Ok)
  {
    ParseExactly(Naming(from), from);
    ParseExactly(Naming(to), to);
    EventFinishes(w, Renamed(Naming(from), Naming(to)), w', o);
    var w1 := Anchor(w, to, Tip(from.bm));
    AnchorHolds(w, from, to);
    RenameTakes(w1, from, to);
  }

  lemma AnchorHolds(w: World, from: Triple, to: Triple)
    requires HasBookmark(w, from) && Clean(to) && from.key == to.key
    ensures var w1 := Anchor(w, to, Tip(from.bm));
            AnchorStatus(w, to, Tip(from.bm)).Ok? && w1.rows == w.rows && HasBookmark(w1, from) && HasBookmark(w1, to)
  {
  }

  lemma RenameTakes(w: World, from: Triple, to: Triple)
    requires RowsNamed(w) && Clean(from) && Clean(to) && from.key == to.key
    requires from in w.rows && HasBookmark(w, from) && HasBookmark(w, to)
    ensures Dangling(MoveRow(w, from, to), to) <==> from == to
  {
    if Naming(to) in (w.rows - {from}).Values {
      var u :| u in w.rows - {from} && w.rows[u] == Naming(to);
      NamingInjective(u, to);
      if from == to { assert false; }
    } else if to !in w.rows - {from} {
      MoveStores(w, from, to);
    }
  }

  lemma WithdrawFinishes(w: World, t: Triple, target: string, w': World, o: Outcome)
    requires Finishes(w, WithdrawSession(t, target), w', o)
    ensures var w1 := Effect(w, DeleteSession(target));
            if target !in w.rows.Values then w' == Effect(w1, DropBookmark(t)) && o == Status(Ok)
            else if Parse(target).None? then w' == w1 && o == Status(Fail(400))
            else w' == Delete(w1, Parse(target).value, target) && o == Status(Ok)
  {
    hide Finishes;
    var a := Stepped(w, WithdrawSession(t, target), w', o);
    WithdrawLookupFinishes(Effect(w, DeleteSession(target)), t, target, w', o);
  }

  lemma WithdrawLookupFinishes(w: World, t: Triple, target: string, w': World, o: Outcome)
    requires Finishes(w, WithdrawLookup(t, target), w', o)
    ensures if target !in w.rows.Values then w' == Effect(w, DropBookmark(t)) && o == Status(Ok)
            else if Parse(target).None? then w' == w && o == Status(Fail(400))
            else w' == Delete(w, Parse(target).value, target) && o == Status(Ok)
  {
    hide Finishes;
    var a := Stepped(w, WithdrawLookup(t, target), w', o);
    if target !in w.rows.Values {
      DropFinishes(w, t, Finish, w', o);
      Ended(Effect(w, DropBookmark(t)), Status(Ok), w', o);
    } else if Parse(target).None? {
      Ended(w, Status(Fail(400)), w', o);
    } else {
      DeleteFinishes(w, Parse(target).value, target, w', o);
    }
  }

  /** Deleting the bookmark of a mapped session leaves its row dangling if and only if the session named
      in the worksheet has no row; the derived name, which the tool puts there, always has one. */
  lemma WithdrawDanglesIffUnmapped(w: World, t: Triple, target: string, w': World, o: Outcome)
    requires Sound(w) && t in w.rows && HasBookmark(w, t)
    requires Finishes(w, WithdrawSession(t, target), w', o)
    ensures Dangling(w', t) <==> target !in w.rows.Values
    ensures target == Naming(t) ==> t !in w'.rows && !HasBookmark(w', t)
  {
    hide Finishes;
    WithdrawFinishes(w, t, target, w', o);
    if target in w.rows.Values {
      var u :| u in w.rows && w.rows[u] == target;
      ParseExactly(target, u);
      var w1 := Effect(w, DeleteSession(target));
      DeleteStores(w1, u, target);
      if target == Naming(t) { NamingInjective(u, t); }
    } else {
      assert w.rows[t] == Naming(t);
    }
  }
}
