/** Worksheet execution over every run: whatever is dispatched again, interleaved or lost, each
    worksheet starts executing at most once, after its claim is in the table, and only if it was
    approved; and exactly when a claim is made in vain (worksheets.go, pg.go). */
module Worksheets {
  import opened Stores
  import opened Handlers
  import opened Interleaving

  /** Handler i holds the claim of worksheet id and has not started executing it. */
  predicate Holds(s: Sys, i: nat, id: string) {
    i in s.procs && s.procs[i].WsStart? && s.procs[i].id == id
  }

  ghost predicate Dedup(s: Sys) {
    && (forall id :: s.w.started[id] <= 1 && (s.w.started[id] == 1 ==> id in s.w.claimed))
    && (forall i, id :: Holds(s, i, id) ==> id in s.w.claimed && s.w.started[id] == 0)
    && (forall i, j, id :: Holds(s, i, id) && Holds(s, j, id) ==> i == j)
  }

  /** Only a first claim gets a handler to the start of an execution, and no call leads to a claim. */
  lemma StartAfterClaim(pc: Pc, a: Resp)
    requires !pc.End?
    ensures Feed(pc, a).WsStart? ==> pc.WsClaim? && pc.id == Feed(pc, a).id && a == First(true)
    ensures !Feed(pc, a).WsClaim?
  {
    if !pc.WsClaim? && !pc.ResolveHit? && !pc.ResolveRow? && !pc.ResolvePut? { PlainFeed(pc, a); }
  }

  /** What a call does to the claims and to the count of executions. */
  lemma DedupWrites(w: World, q: Req, e: Ev)
    requires Legal(w, q, e)
    ensures var w' := After(w, q, e);
            && w.claimed <= w'.claimed
            && w'.started == (if q.StartExec? then w.started + multiset{q.id} else w.started)
            && (q.Claim? && e.resp == First(true) ==> q.id !in w.claimed && q.id in w'.claimed)
  {
  }

  lemma DedupCall(s: Sys, i: nat, e: Ev, s': Sys)
    requires Dedup(s) && Next(s, Call(i, e), s')
    ensures Dedup(s')
  {
    var pc := s.procs[i];
    DedupWrites(s.w, Request(pc), e);
    if Request(pc).StartExec? {
      assert Holds(s, i, pc.id);
    }
    StartAfterClaim(pc, e.resp);
    forall j, id | Holds(s', j, id) ensures id in s'.w.claimed && s'.w.started[id] == 0 {
      if j != i { assert Holds(s, j, id); }
    }
    forall j, l, id | Holds(s', j, id) && Holds(s', l, id) ensures j == l {
      if j != i { assert Holds(s, j, id); }
      if l != i { assert Holds(s, l, id); }
    }
  }

  lemma DedupNext(s: Sys, act: Act, s': Sys)
    requires Dedup(s) && Next(s, act, s')
    ensures Dedup(s')
  {
    if act.Call? {
      DedupCall(s, act.i, act.e, s');
    } else {
      assert forall i, id :: Holds(s', i, id) ==> Holds(s, i, id);
    }
  }

  /** Each worksheet starts executing at most once, and no sooner than its claim is recorded. */
  lemma {:induction false} ExecutedAtMostOnce(b: seq<Sys>, acts: seq<Act>, n: nat)
    requires Behavior(b, acts) && Dedup(b[0]) && n < |b|
    ensures Dedup(b[n])
  {
    if n > 0 {
      ExecutedAtMostOnce(b, acts, n - 1);
      assert Next(b[n - 1], acts[n - 1], b[n - 1 + 1]);
      DedupNext(b[n - 1], acts[n - 1], b[n]);
    }
  }

  // ---- claims made in vain ----

  /** Claimed, not started, and no handler left that would start it. */
  ghost predicate InVain(s: Sys, id: string) {
    id in s.w.claimed && s.w.started[id] == 0 && forall i :: !Holds(s, i, id)
  }

  /** The first claim takes effect but its answer is lost, or the process crashes between claim and execution. */
  ghost predicate Wastes(s: Sys, act: Act, id: string) {
    || (act.Call? && act.i in s.procs && !s.procs[act.i].End? && Request(s.procs[act.i]) == Claim(id)
        && act.e == Ev(Failed, true) && id !in s.w.claimed)
    || (act.Crash? && exists i :: Holds(s, i, id))
  }

  lemma InVainNext(s: Sys, act: Act, s': Sys, id: string)
    requires Dedup(s) && Next(s, act, s')
    ensures InVain(s', id) <==> InVain(s, id) || Wastes(s, act, id)
  {
    if act.Call? {
      InVainCall(s, act.i, act.e, s', id);
    } else if act.Spawn? {
      assert forall i :: Holds(s', i, id) <==> Holds(s, i, id);
    } else if act.Env? {
      assert forall i :: Holds(s', i, id) <==> Holds(s, i, id);
    }
  }

  lemma InVainCall(s: Sys, i: nat, e: Ev, s': Sys, id: string)
    requires Dedup(s) && Next(s, Call(i, e), s')
    ensures InVain(s', id) <==> InVain(s, id) || Wastes(s, Call(i, e), id)
  {
    var pc := s.procs[i];
    assert forall j :: j != i ==> (Holds(s', j, id) <==> Holds(s, j, id));
    ClaimsAndStarts(s.w, pc, e, id);
    assert Holds(s, i, id) <==> pc.WsStart? && pc.id == id;
    assert Holds(s', i, id) <==> Request(pc) == Claim(id) && e.resp == First(true);
    if Request(pc) == StartExec(id) { assert Holds(s, i, id); }
  }

  /** What one call does to the claim and the execution of one worksheet. */
  lemma ClaimsAndStarts(w: World, pc: Pc, e: Ev, id: string)
    requires !pc.End? && Legal(w, Request(pc), e)
    ensures var w', next := After(w, Request(pc), e), Feed(pc, e.resp);
            && (id in w'.claimed <==> id in w.claimed || (Request(pc) == Claim(id) && e.took))
            && w'.started[id] == w.started[id] + (if Request(pc) == StartExec(id) then 1 else 0)
            && (Request(pc) == StartExec(id) <==> pc.WsStart? && pc.id == id)
            && (next.WsStart? && next.id == id <==> Request(pc) == Claim(id) && e.resp == First(true))
            && (Request(pc) == Claim(id) ==> e == Ev(Failed, e.took) || e == Ev(First(id !in w.claimed), true))
  {
    StartAfterClaim(pc, e.resp);
    ClaimEffect(w, Request(pc), e, id);
    ClaimRequest(pc, e.resp, id);
  }

  lemma ClaimEffect(w: World, q: Req, e: Ev, id: string)
    requires Legal(w, q, e)
    ensures var w' := After(w, q, e);
            && (id in w'.claimed <==> id in w.claimed || (q == Claim(id) && e.took))
            && w'.started[id] == w.started[id] + (if q == StartExec(id) then 1 else 0)
            && (q == Claim(id) ==> e == Ev(Failed, e.took) || e == Ev(First(id !in w.claimed), true))
  {
  }

  lemma ClaimRequest(pc: Pc, a: Resp, id: string)
    requires !pc.End?
    ensures Request(pc) == StartExec(id) <==> pc.WsStart? && pc.id == id
    ensures Request(pc) == Claim(id) <==> pc.WsClaim? && pc.id == id
    ensures pc.WsClaim? && a == First(true) ==> Feed(pc, a) == WsStart(pc.id, pc.job)
  {
  }

  ghost predicate WastedBefore(b: seq<Sys>, acts: seq<Act>, n: nat, id: string) {
    exists k :: 0 <= k < n <= |acts| < |b| && Wastes(b[k], acts[k], id)
  }

  /** Not exactly once: a worksheet claimed during the run will never be executed, however often its decision is
      delivered, if and only if the answer to its first claim was lost or the process crashed right after it.
      In every other case it has been started once or is about to be. */
  lemma {:induction false} ClaimedInVainIff(b: seq<Sys>, acts: seq<Act>, n: nat, id: string)
    requires Behavior(b, acts) && Dedup(b[0]) && id !in b[0].w.claimed && n < |b|
    ensures InVain(b[n], id) <==> WastedBefore(b, acts, n, id)
    ensures id in b[n].w.claimed ==>
              b[n].w.started[id] == 1 || (exists i :: Holds(b[n], i, id)) || WastedBefore(b, acts, n, id)
  {
    hide Next, Wastes;
    ExecutedAtMostOnce(b, acts, n);
    if n > 0 {
      ClaimedInVainIff(b, acts, n - 1, id);
      ExecutedAtMostOnce(b, acts, n - 1);
      assert Next(b[n - 1], acts[n - 1], b[n - 1 + 1]);
      InVainNext(b[n - 1], acts[n - 1], b[n], id);
      if k :| 0 <= k < n - 1 && Wastes(b[k], acts[k], id) { assert 0 <= k < n; }
    }
  }

  // ---- approvals ----

  /** An approved decision for the worksheet was dispatched before the n-th state. */
  ghost predicate Approved(acts: seq<Act>, n: nat, id: string) {
    exists k, job :: 0 <= k < n <= |acts| && acts[k].Spawn? && acts[k].pc == OnDecision(id, true, job)
  }

  /** The only way to a claim is an approved decision with that id. */
  lemma ClaimOnlyApproved(pc: Pc)
    requires Starts(pc) && pc.WsClaim?
    ensures pc == OnDecision(pc.id, true, pc.job)
  {
  }

  /** Rejections never claim: a worksheet claimed during the run was dispatched with an approval before. */
  lemma {:induction false} OnlyApprovalsClaim(b: seq<Sys>, acts: seq<Act>, n: nat, id: string)
    requires Behavior(b, acts) && n < |b| && b[0].procs == map[] && id !in b[0].w.claimed
    ensures id in b[n].w.claimed ==> Approved(acts, n, id)
    ensures forall i :: i in b[n].procs && b[n].procs[i].WsClaim? && b[n].procs[i].id == id ==> Approved(acts, n, id)
  {
    if n > 0 {
      OnlyApprovalsClaim(b, acts, n - 1, id);
      var act, s := acts[n - 1], b[n - 1];
      assert Next(s, act, b[n - 1 + 1]);
      assert Approved(acts, n - 1, id) ==> Approved(acts, n, id);
      if act.Call? {
        StartAfterClaim(s.procs[act.i], act.e.resp);
        ClaimEffect(s.w, Request(s.procs[act.i]), act.e, id);
        ClaimRequest(s.procs[act.i], act.e.resp, id);
      } else if act.Spawn? && act.pc.WsClaim? && act.pc.id == id {
        ClaimOnlyApproved(act.pc);
        assert acts[n - 1].pc == OnDecision(id, true, act.pc.job);
      }
    }
  }
}
