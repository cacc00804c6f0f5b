/** A listing that fails while the repositories are walked makes its repository look empty, and a delete then
    reports success without dropping the bookmark: exactly when (client_jj.go, events_sub.go). */
module Swallowed {
  import opened Names
  import opened Stores
  import opened Handlers
  import opened BigStep
  import opened Termination

  /** The tree a walk over the repositories builds from the answers it gets. */
  function Walk(todo: seq<Key>, evs: seq<Ev>, tree: Tree): Tree
    requires |todo| <= |evs|
    decreases |todo|
  {
    if todo == [] then tree
    else Walk(todo[1..], evs[1..], tree[todo[0] := if evs[0].resp.Bms? then evs[0].resp.bms else {}])
  }

  /** The answers of the walk are those of jjlab in state w. */
  ghost predicate Walked(w: World, todo: seq<Key>, evs: seq<Ev>) {
    |todo| <= |evs| && forall j :: 0 <= j < |todo| ==> Legal(w, ListBookmarks(todo[j]), evs[j])
  }

  lemma {:induction false} ScanPath(w: World, use: Use, todo: seq<Key>, tree: Tree, evs: seq<Ev>, w': World, o: Outcome)
    requires Path(w, Scan(use, todo, tree), evs, w', End(o))
    ensures Walked(w, todo, evs)
    ensures Path(w, UseTree(use, Walk(todo, evs, tree)), evs[|todo|..], w', End(o))
    decreases |todo|
  {
    hide Feed, Request, After, Effect, Answers, Legal, UseTree;
    if todo == [] {
      assert evs[0..] == evs;
    } else {
      var e := evs[0];
      ScanStep(w, use, todo, tree, e);
      var tree1 := tree[todo[0] := if e.resp.Bms? then e.resp.bms else {}];
      ScanPath(w, use, todo[1..], tree1, evs[1..], w', o);
      WalkedCons(w, todo, evs);
      assert evs[1..][|todo| - 1..] == evs[|todo|..];
    }
  }

  lemma WalkedCons(w: World, todo: seq<Key>, evs: seq<Ev>)
    requires todo != [] && evs != [] && Legal(w, ListBookmarks(todo[0]), evs[0]) && Walked(w, todo[1..], evs[1..])
    ensures Walked(w, todo, evs)
  {
    hide Legal;
    forall j | 0 <= j < |todo| ensures Legal(w, ListBookmarks(todo[j]), evs[j]) {
      if j > 0 { assert todo[1..][j - 1] == todo[j] && evs[1..][j - 1] == evs[j]; }
    }
  }

  lemma ScanStep(w: World, use: Use, todo: seq<Key>, tree: Tree, e: Ev)
    requires todo != []
    ensures var pc := Scan(use, todo, tree);
            && !pc.End? && Request(pc) == ListBookmarks(todo[0]) && After(w, Request(pc), e) == w
            && Feed(pc, e.resp) == Scan(use, todo[1..], tree[todo[0] := if e.resp.Bms? then e.resp.bms else {}])
  {
  }

  /** The last time the repository was asked for its bookmarks, the call failed. */
  ghost predicate Unanswered(todo: seq<Key>, evs: seq<Ev>, key: Key) {
    exists j :: 0 <= j < |todo| <= |evs| && todo[j] == key && evs[j].resp.Failed? && key !in todo[j + 1..]
  }

  /** What the walk shows of one bookmark. */
  lemma {:induction false} WalkShows(w: World, todo: seq<Key>, evs: seq<Ev>, tree: Tree, t: Triple)
    requires Walked(w, todo, evs) && t.key in todo ==> t.key in w.repos
    requires Walked(w, todo, evs)
    ensures Shows(Walk(todo, evs, tree), t) <==>
            if t.key in todo then HasBookmark(w, t) && !Unanswered(todo, evs, t.key) else Shows(tree, t)
    decreases |todo|
  {
    if todo != [] {
      var rest, evs1 := todo[1..], evs[1..];
      var tree1 := tree[todo[0] := if evs[0].resp.Bms? then evs[0].resp.bms else {}];
      assert Walked(w, rest, evs1);
      WalkShows(w, rest, evs1, tree1, t);
      assert todo == [todo[0]] + rest;
      UnansweredTail(todo, evs, t.key);
      assert Legal(w, ListBookmarks(todo[0]), evs[0]);
    }
  }

  lemma UnansweredTail(todo: seq<Key>, evs: seq<Ev>, key: Key)
    requires todo != [] && |todo| <= |evs|
    ensures Unanswered(todo, evs, key) <==>
            Unanswered(todo[1..], evs[1..], key) || (todo[0] == key && evs[0].resp.Failed? && key !in todo[1..])
  {
    var rest, evs1 := todo[1..], evs[1..];
    if j :| 0 <= j < |todo| && todo[j] == key && evs[j].resp.Failed? && key !in todo[j + 1..] {
      if j > 0 { assert rest[j - 1] == key && evs1[j - 1] == evs[j] && rest[j..] == todo[j + 1..]; }
    }
    if j :| 0 <= j < |rest| && rest[j] == key && evs1[j].resp.Failed? && key !in rest[j + 1..] {
      assert todo[j + 1] == key && evs[j + 1] == evs1[j] && todo[j + 2..] == rest[j + 1..];
    }
  }

  lemma UnmapPath(w: World, t: Triple, sid: string, evs: seq<Ev>, w': World)
    requires Path(w, UnmapRow(t, sid), evs, w', Stop(Ok))
    ensures w'.rows == w.rows - {t} && w'.repos == w.repos
  {
    var e := evs[0];
    assert Path(After(w, DeleteRow(t), e), Feed(UnmapRow(t, sid), e.resp), evs[1..], w', Stop(Ok));
    if e.resp.Done? { EvictPath(After(w, DeleteRow(t), e), sid, evs[1..], w'); }
  }

  lemma EvictPath(w: World, sid: string, evs: seq<Ev>, w': World)
    requires Path(w, UnmapEvict(sid), evs, w', Stop(Ok))
    ensures w'.rows == w.rows && w'.repos == w.repos
  {
    var e := evs[0];
    assert Path(After(w, CacheEvict(sid), e), Stop(Ok), evs[1..], w', Stop(Ok));
  }

  /** What a delete comes to once the repositories are walked: the bookmark goes if the walk shows it. */
  lemma DropPath(w: World, t: Triple, sid: string, tree: Tree, evs: seq<Ev>, w': World)
    requires Path(w, UseTree(Drop(t, Unmap(sid)), tree), evs, w', Stop(Ok))
    ensures w'.rows == w.rows - {t}
    ensures HasBookmark(w', t) <==> HasBookmark(w, t) && !Shows(tree, t)
  {
    if Shows(tree, t) {
      var e := evs[0];
      assert Path(After(w, DropBookmark(t), e), Feed(DropCall(t, Unmap(sid)), e.resp), evs[1..], w', Stop(Ok));
      if e.resp.Done? { UnmapPath(After(w, DropBookmark(t), e), t, sid, evs[1..], w'); }
    } else {
      UnmapPath(w, t, sid, evs, w');
    }
  }

  lemma LookedUp(w: World, t: Triple, evs: seq<Ev>, w': World)
    requires Clean(t) && RowsNamed(w) && Path(w, OnEvent(Deleted(Naming(t))), evs, w', Stop(Ok))
    ensures t !in w.rows ==> w' == w
    ensures t in w.rows ==> evs != [] && Path(w, TreeList(Drop(t, Unmap(Naming(t)))), evs[1..], w', Stop(Ok))
  {
    ParseExactly(Naming(t), t);
    ConflictMeansBound(w, t, t);
    var pc, e := DeletedLookup(t, Naming(t)), evs[0];
    assert Path(After(w, Request(pc), e), Feed(pc, e.resp), evs[1..], w', Stop(Ok));
  }

  lemma Listed(w: World, use: Use, evs: seq<Ev>, w': World)
    requires use.Drop? && Path(w, TreeList(use), evs, w', Stop(Ok))
    ensures evs != [] && evs[0].resp.Repos? && Enumerates(evs[0].resp.keys, w.repos.Keys)
    ensures Path(w, Scan(use, evs[0].resp.keys, map[]), evs[1..], w', Stop(Ok))
  {
    var e := evs[0];
    assert Path(After(w, ListRepos, e), Feed(TreeList(use), e.resp), evs[1..], w', Stop(Ok));
  }

  /** A delete event that reports success has removed the row; but the bookmark is still there if and only if the
      call that listed its repository's bookmarks had failed. */
  lemma DeletedButBookmarkStaysIff(w: World, t: Triple, evs: seq<Ev>, w': World)
    requires Clean(t) && RowsNamed(w) && t in w.rows && HasBookmark(w, t)
    requires Path(w, OnEvent(Deleted(Naming(t))), evs, w', Stop(Ok))
    ensures t !in w'.rows && |evs| >= 2 && evs[1].resp.Repos?
    ensures HasBookmark(w', t) <==> Unanswered(evs[1].resp.keys, evs[2..], t.key)
  {
    hide Path, OnEvent;
    var use := Drop(t, Unmap(Naming(t)));
    LookedUp(w, t, evs, w');
    Listed(w, use, evs[1..], w');
    var keys := evs[1].resp.keys;
    assert evs[1..][1..] == evs[2..];
    ScanPath(w, use, keys, map[], evs[2..], w', Status(Ok));
    WalkShows(w, keys, evs[2..], map[], t);
    DropPath(w, t, Naming(t), Walk(keys, evs[2..], map[]), evs[2..][|keys|..], w');
  }

  /** Without a row there is nothing to do. */
  lemma DeletedUnmapped(w: World, t: Triple, evs: seq<Ev>, w': World)
    requires Clean(t) && RowsNamed(w) && t !in w.rows && Path(w, OnEvent(Deleted(Naming(t))), evs, w', Stop(Ok))
    ensures w' == w
  {
    LookedUp(w, t, evs, w');
  }

  // ---- it does happen ----

  /** The tree of a walk whose listings all fail. */
  function Blinded(todo: seq<Key>, tree: Tree): Tree {
    if todo == [] then tree else Blinded(todo[1..], tree[todo[0] := {}])
  }

  lemma {:induction false} BlindedShows(todo: seq<Key>, tree: Tree, t: Triple)
    requires !Shows(tree, t)
    ensures !Shows(Blinded(todo, tree), t)
  {
    if todo != [] { BlindedShows(todo[1..], tree[todo[0] := {}], t); }
  }

  lemma {:induction false} BlindWalk(w: World, use: Use, todo: seq<Key>, tree: Tree, evs: seq<Ev>, w': World,
                                     o: Outcome) returns (all: seq<Ev>)
    requires Path(w, UseTree(use, Blinded(todo, tree)), evs, w', End(o))
    ensures Path(w, Scan(use, todo, tree), all, w', End(o))
    decreases |todo|
  {
    hide Path;
    if todo == [] {
      all := evs;
    } else {
      var rest := BlindWalk(w, use, todo[1..], tree[todo[0] := {}], evs, w', o);
      ScanStep(w, use, todo, tree, Ev(Failed, false));
      PathCons(w, Scan(use, todo, tree), Ev(Failed, false), rest, w', o);
      all := [Ev(Failed, false)] + rest;
    }
  }

  lemma UnmapRun(w: World, t: Triple, sid: string) returns (evs: seq<Ev>)
    ensures Path(w, UnmapRow(t, sid), evs, Effect(Effect(w, DeleteRow(t)), CacheEvict(sid)), Stop(Ok))
  {
    hide Path;
    var e, w1 := Ev(Done, true), Effect(w, DeleteRow(t));
    var w2 := Effect(w1, CacheEvict(sid));
    assert Path(w2, Stop(Ok), [], w2, Stop(Ok)) by { Nowhere(w2, Status(Ok)); }
    PathCons(w1, UnmapEvict(sid), e, [], w2, Status(Ok));
    PathCons(w, UnmapRow(t, sid), e, [e] + [], w2, Status(Ok));
    evs := [e] + ([e] + []);
  }

  lemma Nowhere(w: World, o: Outcome)
    ensures Path(w, End(o), [], w, End(o))
  {
  }

  lemma UnseenDelete(w: World, t: Triple, sid: string) returns (evs: seq<Ev>)
    ensures Path(w, TreeList(Drop(t, Unmap(sid))), evs, Effect(Effect(w, DeleteRow(t)), CacheEvict(sid)), Stop(Ok))
  {
    hide Path;
    var use, w' := Drop(t, Unmap(sid)), Effect(Effect(w, DeleteRow(t)), CacheEvict(sid));
    var keys := EnumerationExists(w.repos.Keys);
    BlindedShows(keys, map[], t);
    evs := UnmapRun(w, t, sid);
    evs := BlindWalk(w, use, keys, map[], evs, w', Status(Ok));
    PathCons(w, TreeList(use), Ev(Repos(keys), true), evs, w', Status(Ok));
    evs := [Ev(Repos(keys), true)] + evs;
  }

  /** A listing that fails does not stop a walk: from every state with a mapped bookmark there is a run of its delete
      event that reports success and leaves the bookmark. */
  lemma DeletedButBookmarkStays(w: World, t: Triple) returns (evs: seq<Ev>, w': World)
    requires Clean(t) && RowsNamed(w) && t in w.rows && HasBookmark(w, t)
    ensures Path(w, OnEvent(Deleted(Naming(t))), evs, w', Stop(Ok)) && t !in w'.rows && HasBookmark(w', t)
  {
    hide Path, Naming, Parse;
    var sid := Naming(t);
    ParseExactly(sid, t);
    evs := UnseenDelete(w, t, sid);
    w' := Effect(Effect(w, DeleteRow(t)), CacheEvict(sid));
    var e := Ev(Found(Some(Row(t, sid))), true);
    PathCons(w, DeletedLookup(t, sid), e, evs, w', Status(Ok));
    evs := [e] + evs;
  }
}
