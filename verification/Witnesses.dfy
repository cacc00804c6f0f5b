/** Runs that exist: one handler undisturbed is a run of the whole system, and so are short ones that show a
    stale cache entry, a row without its bookmark, a worksheet claimed in vain and one whose execution fails. */
module Witnesses {
  import opened Names
  import opened Stores
  import opened Handlers
  import opened Interleaving
  import opened Isolation
  import opened BigStep
  import opened Sequential
  import opened Coherence
  import opened Worksheets

  /** The run from s to s', handlers one at a time and nothing else happening. */
  ghost predicate Leads(b: seq<Sys>, acts: seq<Act>, s: Sys, s': Sys) {
    && Behavior(b, acts) && b[0] == s && b[|acts|] == s'
    && (forall k :: 0 <= k < |b| ==> OneLive(b[k]))
    && (forall k :: 0 <= k < |acts| ==> !acts[k].Env?)
  }

  ghost predicate OthersEnded(s: Sys, i: nat) {
    forall j :: j in s.procs && j != i ==> s.procs[j].End?
  }

  /** A handler's calls without anybody else's in between are a run of the system. */
  lemma {:induction false} SoloRun(s: Sys, i: nat, evs: seq<Ev>, w': World, pc': Pc)
      returns (b: seq<Sys>, acts: seq<Act>)
    requires i in s.procs && OthersEnded(s, i) && Path(s.w, s.procs[i], evs, w', pc')
    ensures Leads(b, acts, s, Sys(w', s.procs[i := pc']))
    decreases |evs|
  {
    hide Feed, Request, After, Legal;
    if evs == [] {
      assert s.procs[i := pc'] == s.procs;
      b, acts := [s], [];
    } else {
      var pc, e := s.procs[i], evs[0];
      var s1 := Sys(After(s.w, Request(pc), e), s.procs[i := Feed(pc, e.resp)]);
      var b1, acts1 := SoloRun(s1, i, evs[1..], w', pc');
      assert s1.procs[i := pc'] == s.procs[i := pc'];
      b, acts := Before(s, Call(i, e), s1, b1, acts1, Sys(w', s.procs[i := pc']));
    }
  }

  lemma Before(s: Sys, act: Act, s1: Sys, b: seq<Sys>, acts: seq<Act>, s': Sys) returns (b': seq<Sys>, acts': seq<Act>)
    requires Next(s, act, s1) && !act.Env? && OneLive(s) && Leads(b, acts, s1, s')
    ensures Leads(b', acts', s, s')
  {
    hide Next, OneLive;
    b', acts' := [s] + b, [act] + acts;
    forall k | 0 <= k < |acts'| ensures Next(b'[k], acts'[k], b'[k + 1]) {
      if k > 0 { assert Next(b[k - 1], acts[k - 1], b[k - 1 + 1]); }
    }
  }

  lemma {:induction false} Joined(b: seq<Sys>, acts: seq<Act>, s: Sys, s1: Sys, b1: seq<Sys>, acts1: seq<Act>, s': Sys)
      returns (b': seq<Sys>, acts': seq<Act>)
    requires Leads(b, acts, s, s1) && Leads(b1, acts1, s1, s')
    ensures Leads(b', acts', s, s')
    decreases |acts|
  {
    hide Next, OneLive;
    if acts == [] {
      b', acts' := b1, acts1;
    } else {
      var bt, at := b[1..], acts[1..];
      assert Next(b[0], acts[0], b[0 + 1]);
      forall k | 0 <= k < |at| ensures Next(bt[k], at[k], bt[k + 1]) {
        assert Next(b[k + 1], acts[k + 1], b[k + 1 + 1]);
      }
      var b2, acts2 := Joined(bt, at, b[1], s1, b1, acts1, s');
      b', acts' := Before(s, acts[0], b[1], b2, acts2, s');
    }
  }

  /** A handler starts and runs undisturbed. */
  lemma StartedRun(s: Sys, i: nat, pc: Pc, evs: seq<Ev>, w': World, pc': Pc) returns (b: seq<Sys>, acts: seq<Act>)
    requires i !in s.procs && Starts(pc) && (forall j :: j in s.procs ==> s.procs[j].End?)
    requires Path(s.w, pc, evs, w', pc')
    ensures Leads(b, acts, s, Sys(w', s.procs[i := pc']))
  {
    hide Path;
    var s1 := s.(procs := s.procs[i := pc]);
    var b1, acts1 := SoloRun(s1, i, evs, w', pc');
    assert s1.procs[i := pc'] == s.procs[i := pc'];
    assert Next(s, Spawn(i, pc), s1);
    b, acts := Before(s, Spawn(i, pc), s1, b1, acts1, Sys(w', s.procs[i := pc']));
  }

  // ---- a handler's calls one by one ----

  lemma AtRest(w: World, pc: Pc)
    ensures Path(w, pc, [], w, pc)
  {
  }

  /** One call leads from here to there. */
  ghost predicate Goes(w: World, pc: Pc, e: Ev, w1: World, pc1: Pc) {
    !pc.End? && Legal(w, Request(pc), e) && w1 == After(w, Request(pc), e) && pc1 == Feed(pc, e.resp)
  }

  lemma Ahead(w: World, pc: Pc, e: Ev, evs: seq<Ev>, w1: World, pc1: Pc, w': World, pc': Pc)
    requires Goes(w, pc, e, w1, pc1) && Path(w1, pc1, evs, w', pc')
    ensures Path(w, pc, [e] + evs, w', pc')
  {
    hide Feed, Request, After, Legal;
    assert ([e] + evs)[1..] == evs;
  }

  lemma TwoCalls(w: World, pc: Pc, e: Ev, w1: World, pc1: Pc, e1: Ev, w2: World, pc2: Pc)
    requires Goes(w, pc, e, w1, pc1) && Goes(w1, pc1, e1, w2, pc2)
    ensures Path(w, pc, [e, e1], w2, pc2)
  {
    hide Path, Goes;
    AtRest(w2, pc2);
    Ahead(w1, pc1, e1, [], w2, pc2, w2, pc2);
    assert [e1] + [] == [e1];
    Ahead(w, pc, e, [e1], w1, pc1, w2, pc2);
    assert [e] + [e1] == [e, e1];
  }

  lemma ThreeCalls(w: World, pc: Pc, e: Ev, w1: World, pc1: Pc, e1: Ev, w2: World, pc2: Pc, e2: Ev, w3: World, pc3: Pc)
    requires Goes(w, pc, e, w1, pc1) && Goes(w1, pc1, e1, w2, pc2) && Goes(w2, pc2, e2, w3, pc3)
    ensures Path(w, pc, [e, e1, e2], w3, pc3)
  {
    hide Path, Goes;
    TwoCalls(w1, pc1, e1, w2, pc2, e2, w3, pc3);
    Ahead(w, pc, e, [e1, e2], w1, pc1, w3, pc3);
    assert [e] + [e1, e2] == [e, e1, e2];
  }

  // ---- a stale cache entry ----

  /** The stores when a workspace is bound, nothing is cached and jjlab has no repositories. */
  function BoundOnly(t: Triple): World {
    World({}, map[], map[t := Naming(t)], {}, {}, multiset{}, map[], 0)
  }

  /** Resolved: the row is cached. */
  function BoundAndCached(t: Triple): World {
    BoundOnly(t).(cache := map[Naming(t) := Entry(t, TTL)])
  }

  lemma ResolveMisses(t: Triple)
    ensures Goes(BoundOnly(t), ResolveHit(Naming(t)), Ev(Hit(None), true), BoundOnly(t), ResolveRow(Naming(t)))
  {
  }

  lemma ResolveFinds(t: Triple)
    ensures Goes(BoundOnly(t), ResolveRow(Naming(t)), Ev(Found(Some(Row(t, Naming(t)))), true),
                 BoundOnly(t), ResolvePut(Naming(t), t))
  {
  }

  lemma ResolvePuts(t: Triple)
    ensures Goes(BoundOnly(t), ResolvePut(Naming(t), t), Ev(Done, true), BoundAndCached(t), End(Resolved(Naming(t), t)))
  {
  }

  lemma ResolvedOnce(t: Triple)
    ensures var row := Row(t, Naming(t));
            Path(BoundOnly(t), ResolveHit(Naming(t)), [Ev(Hit(None), true), Ev(Found(Some(row)), true), Ev(Done, true)],
                 BoundAndCached(t), End(Resolved(Naming(t), t)))
  {
    hide Path, Goes, Naming;
    var w, sid, row := BoundOnly(t), Naming(t), Row(t, Naming(t));
    ResolveMisses(t);
    ResolveFinds(t);
    ResolvePuts(t);
    ThreeCalls(w, ResolveHit(sid), Ev(Hit(None), true), w, ResolveRow(sid),
               Ev(Found(Some(row)), true), w, ResolvePut(sid, t),
               Ev(Done, true), BoundAndCached(t), End(Resolved(sid, t)));
  }

  lemma DeleteFinds(t: Triple)
    ensures Goes(BoundAndCached(t), DeletedLookup(t, Naming(t)), Ev(Found(Some(Row(t, Naming(t)))), true),
                 BoundAndCached(t), TreeList(Drop(t, Unmap(Naming(t)))))
  {
  }

  lemma DeleteLists(t: Triple)
    ensures Goes(BoundAndCached(t), TreeList(Drop(t, Unmap(Naming(t)))), Ev(Repos([]), true),
                 BoundAndCached(t), UnmapRow(t, Naming(t)))
  {
  }

  lemma DeleteLoses(t: Triple)
    ensures Goes(BoundAndCached(t), UnmapRow(t, Naming(t)), Ev(Failed, true),
                 BoundAndCached(t).(rows := map[]), Error(502))
  {
    assert BoundAndCached(t).rows - {t} == map[];
  }

  /** Deleted, but the answer to the removal of the row gets lost. */
  lemma DeletedWithoutAnswer(t: Triple)
    requires Clean(t)
    ensures var row := Row(t, Naming(t));
            Path(BoundAndCached(t), OnEvent(Deleted(Naming(t))),
                 [Ev(Found(Some(row)), true), Ev(Repos([]), true), Ev(Failed, true)],
                 BoundAndCached(t).(rows := map[]), Error(502))
  {
    hide Path, Goes, Naming, Parse;
    var w, sid, row := BoundAndCached(t), Naming(t), Row(t, Naming(t));
    ParseExactly(sid, t);
    DeleteFinds(t);
    DeleteLists(t);
    DeleteLoses(t);
    ThreeCalls(w, DeletedLookup(t, sid), Ev(Found(Some(row)), true), w, TreeList(Drop(t, Unmap(sid))),
               Ev(Repos([]), true), w, UnmapRow(t, sid), Ev(Failed, true), w.(rows := map[]), Error(502));
  }

  /** A run that ends with a stale entry: a resolution, then a delete that loses the answer to its removal of
      the row. */
  lemma StaleEntryHappens(t: Triple) returns (b: seq<Sys>, acts: seq<Act>)
    requires Clean(t)
    ensures Behavior(b, acts) && Boot(b[0]) && forall k :: 0 <= k < |b| ==> OneLive(b[k])
    ensures var s := b[|acts|];
            && (forall i :: i in s.procs ==> s.procs[i].End?)
            && Naming(t) in s.w.cache && s.w.cache[Naming(t)].t == t && s.w.now <= s.w.cache[Naming(t)].exp
            && !Backed(s.w, Naming(t), t)
  {
    hide Path, Next, OneLive, Naming, Boot, OnEvent, Starts;
    BoundBoots(t);
    assert Starts(OnEvent(Deleted(Naming(t)))) && Starts(ResolveHit(Naming(t))) by { ResolveAndDeleteStart(Naming(t)); }
    var sid, row := Naming(t), Row(t, Naming(t));
    var s0 := Sys(BoundOnly(t), map[]);
    var s1 := Sys(BoundAndCached(t), map[0 := End(Resolved(sid, t))]);
    var s2 := Sys(BoundAndCached(t).(rows := map[]), map[0 := End(Resolved(sid, t)), 1 := Error(502)]);
    ResolvedOnce(t);
    var b1, acts1 := StartedRun(s0, 0, ResolveHit(sid),
                                [Ev(Hit(None), true), Ev(Found(Some(row)), true), Ev(Done, true)],
                                s1.w, End(Resolved(sid, t)));
    DeletedWithoutAnswer(t);
    var b2, acts2 := StartedRun(s1, 1, OnEvent(Deleted(sid)),
                                [Ev(Found(Some(row)), true), Ev(Repos([]), true), Ev(Failed, true)], s2.w, Error(502));
    assert s0.procs[0 := End(Resolved(sid, t))] == s1.procs;
    assert s1.procs[1 := Error(502)] == s2.procs;
    b, acts := Joined(b1, acts1, s0, s1, b2, acts2, s2);
  }

  lemma BoundBoots(t: Triple)
    requires Clean(t)
    ensures Boot(Sys(BoundOnly(t), map[]))
  {
  }

  lemma ResolveAndDeleteStart(sid: string)
    ensures Starts(OnEvent(Deleted(sid))) && Starts(ResolveHit(sid))
  {
  }

  // ---- a row without its bookmark ----

  /** The stores when a workspace is bound to its bookmark, in the one repository there is. */
  function BoundAndMarked(t: Triple): World {
    BoundOnly(t).(repos := map[t.key := Repo(map[t.bm := ROOT], {ROOT}, ROOT)])
  }

  /** The bookmark is gone. */
  function BoundAndUnmarked(t: Triple): World {
    BoundOnly(t).(repos := map[t.key := Repo(map[], {ROOT}, ROOT)])
  }

  lemma CutFinds(t: Triple)
    ensures var w, sid := BoundAndMarked(t), Naming(t);
            Goes(w, DeletedLookup(t, sid), Ev(Found(Some(Row(t, sid))), true), w, TreeList(Drop(t, Unmap(sid))))
  {
  }

  lemma CutLists(t: Triple)
    ensures var w, use := BoundAndMarked(t), Drop(t, Unmap(Naming(t)));
            Goes(w, TreeList(use), Ev(Repos([t.key]), true), w, TreeScan(use, t.key, [], map[]))
  {
  }

  lemma CutSees(t: Triple)
    ensures var w, use := BoundAndMarked(t), Drop(t, Unmap(Naming(t)));
            Goes(w, TreeScan(use, t.key, [], map[]), Ev(Bms({t.bm}), true), w, DropCall(t, Unmap(Naming(t))))
  {
  }

  lemma CutDrops(t: Triple)
    ensures Goes(BoundAndMarked(t), DropCall(t, Unmap(Naming(t))), Ev(Done, true),
                 BoundAndUnmarked(t), UnmapRow(t, Naming(t)))
  {
    assert map[t.bm := ROOT] - {t.bm} == map[];
  }

  lemma CutFails(t: Triple)
    ensures Goes(BoundAndUnmarked(t), UnmapRow(t, Naming(t)), Ev(Failed, false), BoundAndUnmarked(t), Error(502))
  {
  }

  /** Deleted as far as the bookmark: the removal of the row fails. */
  lemma DeletedHalfway(t: Triple)
    requires Clean(t)
    ensures Path(BoundAndMarked(t), OnEvent(Deleted(Naming(t))),
                 [Ev(Found(Some(Row(t, Naming(t)))), true), Ev(Repos([t.key]), true), Ev(Bms({t.bm}), true),
                  Ev(Done, true), Ev(Failed, false)], BoundAndUnmarked(t), Error(502))
  {
    hide Path, Goes, Naming, Parse;
    var w, w1, sid, use := BoundAndMarked(t), BoundAndUnmarked(t), Naming(t), Drop(t, Unmap(Naming(t)));
    var e0, e1, e2 := Ev(Found(Some(Row(t, sid))), true), Ev(Repos([t.key]), true), Ev(Bms({t.bm}), true);
    var e3, e4 := Ev(Done, true), Ev(Failed, false);
    ParseExactly(sid, t);
    CutFinds(t);
    CutLists(t);
    CutSees(t);
    CutDrops(t);
    CutFails(t);
    ThreeCalls(w, TreeScan(use, t.key, [], map[]), e2, w, DropCall(t, Unmap(sid)), e3, w1, UnmapRow(t, sid),
               e4, w1, Error(502));
    Ahead(w, TreeList(use), e1, [e2, e3, e4], w, TreeScan(use, t.key, [], map[]), w1, Error(502));
    assert [e1] + [e2, e3, e4] == [e1, e2, e3, e4];
    Ahead(w, DeletedLookup(t, sid), e0, [e1, e2, e3, e4], w, TreeList(use), w1, Error(502));
    assert [e0] + [e1, e2, e3, e4] == [e0, e1, e2, e3, e4];
  }

  lemma MarkedBoots(t: Triple)
    requires Clean(t)
    ensures Boot(Sys(BoundAndMarked(t), map[])) && forall u :: !Dangling(BoundAndMarked(t), u)
  {
  }

  /** A run that ends with a row without its bookmark: a delete that drops the bookmark and cannot remove the row. */
  lemma DanglingRowHappens(t: Triple) returns (b: seq<Sys>, acts: seq<Act>)
    requires Clean(t)
    ensures OneAtATime(b, acts) && Boot(b[0]) && forall u :: !Dangling(b[0].w, u)
    ensures Dangling(b[|acts|].w, t) && b[|acts|].procs == map[0 := Error(502)]
  {
    hide Path, Next, OneLive, Naming, Boot, OnEvent, Starts;
    MarkedBoots(t);
    ResolveAndDeleteStart(Naming(t));
    DeletedHalfway(t);
    b, acts := StartedRun(Sys(BoundAndMarked(t), map[]), 0, OnEvent(Deleted(Naming(t))),
                          [Ev(Found(Some(Row(t, Naming(t)))), true), Ev(Repos([t.key]), true), Ev(Bms({t.bm}), true),
                           Ev(Done, true), Ev(Failed, false)], BoundAndUnmarked(t), Error(502));
  }

  // ---- worksheets not executed exactly once ----

  function Empty(): World {
    World({}, map[], map[], {}, {}, multiset{}, map[], 0)
  }

  /** A run in which a worksheet is approved and claimed, and never starts: the answer to the claim gets lost. */
  lemma VainClaimHappens(id: string, job: Job) returns (b: seq<Sys>, acts: seq<Act>)
    requires id != ""
    ensures Behavior(b, acts) && Boot(b[0]) && Dedup(b[0]) && id !in b[0].w.claimed
    ensures InVain(b[|acts|], id)
  {
    hide Path, Next, OneLive, Starts;
    var s := Sys(Empty(), map[]);
    var w1 := Empty().(claimed := {id});
    ClaimLost(id, job);
    assert Starts(OnDecision(id, true, job)) by { DecisionStarts(id, job); }
    b, acts := StartedRun(s, 0, OnDecision(id, true, job), [Ev(Failed, true)], w1, Error(500));
  }

  lemma DecisionStarts(id: string, job: Job)
    ensures Starts(OnDecision(id, true, job))
  {
  }

  lemma ClaimLost(id: string, job: Job)
    requires id != ""
    ensures Path(Empty(), OnDecision(id, true, job), [Ev(Failed, true)], Empty().(claimed := {id}), Error(500))
  {
    hide Path;
    var w1 := Empty().(claimed := {id});
    AtRest(w1, Error(500));
    Ahead(Empty(), WsClaim(id, job), Ev(Failed, true), [], w1, Error(500), w1, Error(500));
    assert [Ev(Failed, true)] + [] == [Ev(Failed, true)];
  }

  /** A run in which a worksheet is claimed and started, and its execution fails at once. */
  lemma FailedExecutionHappens(id: string, job: Job) returns (b: seq<Sys>, acts: seq<Act>)
    requires id != "" && Parse(job.session).None?
    ensures Behavior(b, acts) && Boot(b[0]) && Dedup(b[0]) && id !in b[0].w.claimed
    ensures var s := b[|acts|]; id in s.w.claimed && s.w.started[id] == 1 && s.procs == map[0 := Error(400)]
  {
    hide Path, Next, OneLive, Starts, Parse;
    var s := Sys(Empty(), map[]);
    ExecutionFails(id, job);
    assert Starts(OnDecision(id, true, job)) by { DecisionStarts(id, job); }
    b, acts := StartedRun(s, 0, OnDecision(id, true, job), [Ev(First(true), true), Ev(Done, true)],
                          Empty().(claimed := {id}, started := multiset{id}), Error(400));
  }

  lemma ExecutionFails(id: string, job: Job)
    requires id != "" && Parse(job.session).None?
    ensures Path(Empty(), OnDecision(id, true, job), [Ev(First(true), true), Ev(Done, true)],
                 Empty().(claimed := {id}, started := multiset{id}), Error(400))
  {
    hide Path, Goes, Parse;
    var w1 := Empty().(claimed := {id});
    Claims(id, job);
    StartsInVain(id, job);
    TwoCalls(Empty(), WsClaim(id, job), Ev(First(true), true), w1, WsStart(id, job),
             Ev(Done, true), w1.(started := multiset{id}), Error(400));
  }

  lemma Claims(id: string, job: Job)
    ensures Goes(Empty(), WsClaim(id, job), Ev(First(true), true), Empty().(claimed := {id}), WsStart(id, job))
  {
  }

  lemma StartsInVain(id: string, job: Job)
    requires Parse(job.session).None?
    ensures var w1 := Empty().(claimed := {id});
            Goes(w1, WsStart(id, job), Ev(Done, true), w1.(started := multiset{id}), Error(400))
  {
    hide Parse;
  }
}
