/** What an approved worksheet comes to when it is executed: a fork has its bookmark, row and session, and starts where
    it was asked to; a deletion takes just what it names, and never `main` or the session's own bookmark; a worksheet
    that is refused touches nothing (worksheets.go). */
module Executions {
  import opened Strs
  import opened Names
  import opened Stores
  import opened Handlers
  import opened BigStep
  import opened Stabilise
  import opened Conclusions
  import opened Acknowledged
  import opened Hazards

  /** The state once the worksheet is claimed and its execution has begun. */
  function Begun(w: World, id: string): World {
    w.(claimed := w.claimed + {id}, started := w.started + multiset{id})
  }

  lemma BegunConcludes(w: World, id: string, job: Job, w': World, o: Outcome)
    requires id != "" && id !in w.claimed && Concludes(w, OnDecision(id, true, job), w', o)
    ensures Concludes(Begun(w, id), Exec(job), w', o)
  {
    hide Concludes, Exec;
    var a := Worked(w, WsClaim(id, job), w', o);
    var w1 := Effect(w, Claim(id));
    var a1 := Worked(w1, WsStart(id, job), w', o);
    assert Effect(w1, StartExec(id)) == Begun(w, id);
  }

  lemma BegunFinishes(w: World, id: string, job: Job, w': World, o: Outcome)
    requires id != "" && id !in w.claimed && Finishes(w, OnDecision(id, true, job), w', o)
    ensures Finishes(Begun(w, id), Exec(job), w', o)
  {
    hide Finishes, Exec;
    var a := Stepped(w, WsClaim(id, job), w', o);
    var w1 := Effect(w, Claim(id));
    var a1 := Stepped(w1, WsStart(id, job), w', o);
    assert Effect(w1, StartExec(id)) == Begun(w, id);
  }

  // ---- refusals ----

  /** A worksheet of a session that has no derived name, or without a bookmark or a quest, or against `main` or the
      session's own bookmark. */
  predicate Refused(job: Job) {
    Parse(job.session).None? || job.bookmark == ""
    || (job.ForkJob? && job.quest == "")
    || (job.DropJob? && (job.bookmark == MAIN || job.bookmark == Parse(job.session).value.bm))
  }

  lemma RefusedExec(job: Job)
    requires Refused(job)
    ensures Exec(job) == Error(400)
  {
  }

  /** A refused worksheet changes nothing but its own claim, whatever happens to the calls, and the first claim that
      is answered is answered with a 400. */
  lemma RefusedIsInert(w: World, id: string, job: Job, evs: seq<Ev>, w': World, st: Status)
    requires id != "" && Refused(job) && Path(w, OnDecision(id, true, job), evs, w', Stop(st))
    ensures w' == w || w' == w.(claimed := w.claimed + {id}) || (id !in w.claimed && w' == Begun(w, id))
    ensures evs != [] && st == if evs[0].resp.Failed? then Fail(500) else if id in w.claimed then Ok else Fail(400)
    ensures st == Fail(400) ==> w' == Begun(w, id)
  {
    hide Path, Exec, Refused;
    PathStep(w, WsClaim(id, job), evs, w', Status(st));
    var e := evs[0];
    var w1 := After(w, Claim(id), e);
    if e.resp == First(true) { RefusedStart(w1, id, job, evs[1..], w', st); }
    else { PathEnd(w1, Status(if e.resp.Failed? then Fail(500) else Ok), evs[1..], w', Status(st)); }
  }

  lemma RefusedStart(w: World, id: string, job: Job, evs: seq<Ev>, w': World, st: Status)
    requires Refused(job) && Path(w, WsStart(id, job), evs, w', Stop(st))
    ensures w' == w.(started := w.started + multiset{id}) && st == Fail(400)
  {
    hide Path, Exec, Refused;
    PathStep(w, WsStart(id, job), evs, w', Status(st));
    RefusedExec(job);
    PathEnd(Effect(w, StartExec(id)), Status(Fail(400)), evs[1..], w', Status(st));
  }

  // ---- forks ----

  /** The repository as it is once the service has made sure of it. */
  function RepoThere(w: World, key: Key): Repo {
    if key in w.repos then w.repos[key] else FreshRepo()
  }

  /** Where a fork of workspace own starts: at the base revision if one is given, else where own is. */
  function ForkPoint(w: World, own: Triple, baseRev: string): Option<Commit> {
    var r := RepoThere(w, own.key);
    if baseRev != "" then if baseRev in r.commits then Some(baseRev) else None
    else if own.bm in r.bms then Some(r.bms[own.bm])
    else if own.bm == "" then Some(r.head) else None
  }

  /** Where the bookmark of the new workspace t will be: where it is if it is there, else at the fork point. */
  function StartPoint(w: World, own: Triple, t: Triple, baseRev: string): Option<Commit> {
    var r := RepoThere(w, t.key);
    if t.bm in r.bms then Some(r.bms[t.bm])
    else if Free(t.bm, ':') then ForkPoint(w, own, baseRev)
    else None
  }

  /** The new workspace has its row, or there is a point to start it at. */
  predicate Forkable(w: World, own: Triple, t: Triple, baseRev: string) {
    t in w.rows || StartPoint(w, own, t, baseRev).Some?
  }

  /** Workspace t is bound, unless it was before with its bookmark at that point, and no bookmark has moved. */
  ghost predicate Bound(w: World, own: Triple, t: Triple, baseRev: string, w': World) {
    && w'.rows == w.rows[t := Naming(t)] && KeepsPositions(w, w')
    && w'.managed == (if t in w.rows then w.managed else w.managed + {t.key})
    && (t !in w.rows ==> HasBookmark(w', t) && StartPoint(w, own, t, baseRev) == Some(Position(w', t)))
  }

  lemma NewName(w: World, t: Triple)
    requires RowsNamed(w) && CleanKey(t.key)
    ensures Naming(t) in w.rows.Values <==> t in w.rows
  {
    if Naming(t) in w.rows.Values {
      var u :| u in w.rows && w.rows[u] == Naming(t);
      NamingHalfInjective(t, u);
    }
  }

  /** What ensureForkedAt leaves behind. */
  function ForkedAt(w: World, t: Triple, rev: Rev): World {
    if Naming(t) in w.rows.Values then w else Ensured(Effect(w, PostRepo(t.key)), t, rev, Naming(t))
  }

  lemma ForkedAtConcludes(w: World, t: Triple, rev: Rev, parent: string, w': World, o: Outcome)
    requires Concludes(w, ForkAtLookup(t, Naming(t), rev, parent), w', o)
    ensures Naming(t) in w.rows.Values || AnchorStatus(Effect(w, PostRepo(t.key)), t, rev).Ok?
    ensures Concludes(ForkedAt(w, t, rev), AgentForkCall(parent, Naming(t)), w', o)
  {
    hide Concludes;
    var sid := Naming(t);
    var a := Worked(w, ForkAtLookup(t, sid, rev, parent), w', o);
    if sid !in w.rows.Values {
      var w1 := Effect(w, PostRepo(t.key));
      var a1 := Worked(w, ForkAtRepo(t, sid, rev, parent), w', o);
      EnsureConcludes(w1, t, rev, Bind(sid, AgentFork(parent, sid)), w', o);
      BindConcludes(Anchor(w1, t, rev), t, sid, AgentFork(parent, sid), w', o);
    }
  }

  lemma AgentForkConcludes(w: World, parent: string, sid: string, w': World, o: Outcome)
    requires Concludes(w, AgentForkCall(parent, sid), w', o)
    ensures o == Status(Ok) && (parent in w.sessions || sid in w.sessions)
    ensures w' == w.(sessions := w.sessions + {sid})
  {
    hide Concludes;
    var a := Worked(w, AgentForkCall(parent, sid), w', o);
    var w1 := Effect(w, ForkSession(parent, sid));
    if a.Done? { Over(w1, Status(Ok), w', o); } else { Over(w1, Status(Fail(502)), w', o); }
    if parent !in w.sessions { assert w.sessions + {sid} == w.sessions; }
  }

  function BaseOf(own: Triple, baseRev: string): Rev {
    if baseRev == "" then Tip(own.bm) else At(baseRev)
  }

  lemma ForkedAtBound(w: World, own: Triple, t: Triple, baseRev: string)
    requires Sound(w) && CleanKey(t.key) && own.key == t.key
    ensures var w1, rev := Effect(w, PostRepo(t.key)), BaseOf(own, baseRev);
            Forkable(w, own, t, baseRev) <==> Naming(t) in w.rows.Values || AnchorStatus(w1, t, rev).Ok?
    ensures Forkable(w, own, t, baseRev) ==>
              var z := ForkedAt(w, t, BaseOf(own, baseRev));
              Bound(w, own, t, baseRev, z) && z.sessions == w.sessions
  {
    hide Naming, Ensured, AnchorStatus;
    NewName(w, t);
    var w1, rev := Effect(w, PostRepo(t.key)), BaseOf(own, baseRev);
    Startable(w, own, t, baseRev);
    if t in w.rows {
      assert w.rows[t := Naming(t)] == w.rows;
    } else if Forkable(w, own, t, baseRev) {
      StartsClean(w, own, t, baseRev);
      EnsureDone(w1, t, rev);
      assert KeepsPositions(w, ForkedAt(w, t, rev));
    }
  }

  lemma Startable(w: World, own: Triple, t: Triple, baseRev: string)
    requires own.key == t.key
    ensures var w1, rev := Effect(w, PostRepo(t.key)), BaseOf(own, baseRev);
            && t.key in w1.repos && w1.repos[t.key] == RepoThere(w, t.key)
            && Resolve(w1.repos[t.key], rev) == ForkPoint(w, own, baseRev)
            && (AnchorStatus(w1, t, rev).Ok? <==> StartPoint(w, own, t, baseRev).Some?)
  {
  }

  lemma StartsClean(w: World, own: Triple, t: Triple, baseRev: string)
    requires Sound(w) && CleanKey(t.key) && StartPoint(w, own, t, baseRev).Some?
    ensures Clean(t)
  {
  }

  /** A fork worksheet that is given a definite answer and not refused has done its work, whichever of its calls
      failed: the workspace is bound, and its session is there. */
  lemma ForkIsExecuted(w: World, id: string, job: Job, evs: seq<Ev>, w': World, st: Status)
    requires Sound(w) && id != "" && id !in w.claimed && job.ForkJob? && !Refused(job)
    requires Path(w, OnDecision(id, true, job), evs, w', Stop(st)) && Definite(Status(st))
    ensures var own := Parse(job.session).value;
            var t := Triple(own.key, job.bookmark);
            && st == Ok && Forkable(w, own, t, job.baseRev) && Bound(w, own, t, job.baseRev, w')
            && w'.sessions == w.sessions + {Naming(t)} && (job.session in w.sessions || Naming(t) in w.sessions)
  {
    hide Path, Naming, Begun, Forkable, ForkedAt, RowsNamed, CleanRepos;
    var own, w1 := Parse(job.session).value, Begun(w, id);
    var t := Triple(own.key, job.bookmark);
    assert Concludes(w, OnDecision(id, true, job), w', Status(st));
    BegunConcludes(w, id, job, w', Status(st));
    ForkedAtConcludes(w1, t, BaseOf(own, job.baseRev), job.session, w', Status(st));
    AgentForkConcludes(ForkedAt(w1, t, BaseOf(own, job.baseRev)), job.session, Naming(t), w', Status(st));
    ParseExactly(job.session, own);
    BegunSame(w, id, own, t, job.baseRev, ForkedAt(w1, t, BaseOf(own, job.baseRev)));
    ForkedAtBound(w1, own, t, job.baseRev);
  }

  lemma BegunSame(w: World, id: string, own: Triple, t: Triple, baseRev: string, z: World)
    ensures var w1 := Begun(w, id);
            && (Sound(w) ==> Sound(w1)) && w1.sessions == w.sessions && w1.repos == w.repos && w1.rows == w.rows
            && (Forkable(w1, own, t, baseRev) <==> Forkable(w, own, t, baseRev))
            && StartPoint(w1, own, t, baseRev) == StartPoint(w, own, t, baseRev)
            && (Bound(w1, own, t, baseRev, z) <==> Bound(w, own, t, baseRev, z))
  {
  }

  lemma ForkedAtFinishes(w: World, t: Triple, rev: Rev, parent: string, w': World, o: Outcome)
    requires Finishes(w, ForkAtLookup(t, Naming(t), rev, parent), w', o)
    ensures var w1 := Effect(w, PostRepo(t.key));
            if Naming(t) in w.rows.Values || AnchorStatus(w1, t, rev).Ok?
            then Finishes(ForkedAt(w, t, rev), AgentForkCall(parent, Naming(t)), w', o)
            else w' == w1 && o == Status(Fail(502))
  {
    hide Finishes;
    var sid := Naming(t);
    var a := Stepped(w, ForkAtLookup(t, sid, rev, parent), w', o);
    if sid !in w.rows.Values {
      var w1 := Effect(w, PostRepo(t.key));
      var a1 := Stepped(w, ForkAtRepo(t, sid, rev, parent), w', o);
      EnsureFinishes(w1, t, rev, Bind(sid, AgentFork(parent, sid)), w', o);
      if AnchorStatus(w1, t, rev).Ok? { BindFinishes(Anchor(w1, t, rev), t, sid, AgentFork(parent, sid), w', o); }
      else { Ended(w1, Status(Fail(502)), w', o); }
    }
  }

  lemma AgentForkFinishes(w: World, parent: string, sid: string, w': World, o: Outcome)
    requires Finishes(w, AgentForkCall(parent, sid), w', o)
    ensures o == Status(Ok) || o == Status(Fail(502))
    ensures parent in w.sessions ==> o == Status(Ok)
    ensures parent !in w.sessions && sid !in w.sessions ==> o == Status(Fail(502))
    ensures w'.rows == w.rows && w'.repos == w.repos && w'.managed == w.managed
    ensures w'.sessions == if o == Status(Ok) then w.sessions + {sid} else w.sessions
  {
    hide Finishes;
    var a := Stepped(w, AgentForkCall(parent, sid), w', o);
    var w1 := Effect(w, ForkSession(parent, sid));
    if a.Done? { Ended(w1, Status(Ok), w', o); } else { Ended(w1, Status(Fail(502)), w', o); }
    if parent !in w.sessions && sid in w.sessions { assert w.sessions + {sid} == w.sessions; }
  }

  /** Without failing calls a fork worksheet that is not refused succeeds exactly if the new workspace can be made and
      its parent session is there; only a session that exists already may be taken over without the parent. The
      workspace is bound in any case if it can be. */
  lemma ForkAnswers(w: World, id: string, job: Job, w': World, o: Outcome)
    requires Sound(w) && id != "" && id !in w.claimed && job.ForkJob? && !Refused(job)
    requires Finishes(w, OnDecision(id, true, job), w', o)
    ensures var own := Parse(job.session).value;
            var t := Triple(own.key, job.bookmark);
            && (o == Status(Ok) || o == Status(Fail(502)))
            && (job.session in w.sessions || Naming(t) !in w.sessions ==>
                  (o == Status(Ok) <==> Forkable(w, own, t, job.baseRev) && job.session in w.sessions))
            && (Forkable(w, own, t, job.baseRev) ==> Bound(w, own, t, job.baseRev, w'))
            && (!Forkable(w, own, t, job.baseRev) ==> o == Status(Fail(502)) && w'.rows == w.rows)
            && w'.sessions == if o == Status(Ok) then w.sessions + {Naming(t)} else w.sessions
  {
    hide Finishes, Naming, Begun, Forkable, ForkedAt, RowsNamed, CleanRepos, Bound, AnchorStatus;
    var own, w1 := Parse(job.session).value, Begun(w, id);
    var t, rev := Triple(own.key, job.bookmark), BaseOf(own, job.baseRev);
    ParseExactly(job.session, own);
    BegunFinishes(w, id, job, w', o);
    ForkedAtFinishes(w1, t, rev, job.session, w', o);
    BegunSame(w, id, own, t, job.baseRev, w');
    ForkedAtBound(w1, own, t, job.baseRev);
    if Forkable(w, own, t, job.baseRev) {
      AgentForkFinishes(ForkedAt(w1, t, rev), job.session, Naming(t), w', o);
      BoundSame(w, own, t, job.baseRev, ForkedAt(w1, t, rev), w');
      BegunSame(w, id, own, t, job.baseRev, ForkedAt(w1, t, rev));
    }
  }

  lemma BoundSame(w: World, own: Triple, t: Triple, baseRev: string, z: World, z': World)
    requires z'.rows == z.rows && z'.repos == z.repos && z'.managed == z.managed
    ensures Bound(w, own, t, baseRev, z') <==> Bound(w, own, t, baseRev, z)
  {
  }

  // ---- deletions ----

  /** The session a deletion is about, the derived one if none is named. */
  function Target(job: Job, t: Triple): string
    requires job.DropJob?
  {
    if job.target == "" then Naming(t) else job.target
  }

  /** The row of the target, if there is one. */
  predicate HasRow(w: World, target: string) {
    Parse(target).Some? && Parse(target).value in w.rows
  }

  /** The workspace that goes: the target's if it has a row, else the bookmark named. */
  function Doomed(w: World, target: string, t: Triple): Triple {
    if HasRow(w, target) then Parse(target).value else t
  }

  /** The target's session and row are gone, and every other session, row and bookmark is as it was. */
  ghost predicate Withdrawn(w: World, target: string, t: Triple, w': World) {
    && w'.sessions == w.sessions - {target} && w'.managed == w.managed
    && w'.rows == (if HasRow(w, target) then w.rows - {Doomed(w, target, t)} else w.rows)
    && (forall u :: u != Doomed(w, target, t) ==> (HasBookmark(w', u) <==> HasBookmark(w, u)))
    && (forall u :: u != Doomed(w, target, t) && HasBookmark(w, u) ==> Position(w', u) == Position(w, u))
  }

  lemma RowOfTarget(w: World, target: string)
    requires RowsNamed(w)
    ensures target in w.rows.Values <==> HasRow(w, target)
  {
    if target in w.rows.Values {
      var u :| u in w.rows && w.rows[u] == target;
      ParseExactly(target, u);
    }
    if HasRow(w, target) { ParseExactly(target, Parse(target).value); }
  }

  lemma WithdrawConcludes(w: World, t: Triple, target: string, w': World, o: Outcome)
    requires RowsNamed(w) && Concludes(w, WithdrawSession(t, target), w', o)
    ensures o == Status(Ok) && Withdrawn(w, target, t, w')
  {
    hide Concludes, Withdrawn, Doomed, RowsNamed, Delete, Parse, Naming;
    var a := Worked(w, WithdrawSession(t, target), w', o);
    var w1 := Effect(w, DeleteSession(target));
    RowOfTarget(w, target);
    LookupConcludes(w1, t, target, w', o);
    WithdrawnStores(w, target, t, w');
  }

  lemma LookupConcludes(w: World, t: Triple, target: string, w': World, o: Outcome)
    requires (target in w.rows.Values <==> HasRow(w, target)) && Concludes(w, WithdrawLookup(t, target), w', o)
    ensures o == Status(Ok)
    ensures if HasRow(w, target) then
              var u := Parse(target).value;
              w' == Delete(w, u, target) || w' == Effect(Effect(w, DeleteRow(u)), CacheEvict(target))
            else w' == w || w' == Effect(w, DropBookmark(t))
  {
    hide Concludes, Delete;
    var a := Worked(w, WithdrawLookup(t, target), w', o);
    if HasRow(w, target) {
      DeleteConcludes(w, Parse(target).value, target, w', o);
    } else {
      var w1 := DropConcludes(w, t, Finish, w', o);
      Over(w1, Status(Ok), w', o);
    }
  }

  lemma WithdrawnStores(w: World, target: string, t: Triple, w': World)
    requires target in w.rows.Values <==> HasRow(w, target)
    requires var w1 := Effect(w, DeleteSession(target));
             if HasRow(w, target) then
               var u := Parse(target).value;
               w' == Delete(w1, u, target) || w' == Effect(Effect(w1, DeleteRow(u)), CacheEvict(target))
             else w' == w1 || w' == Effect(w1, DropBookmark(t))
    ensures Withdrawn(w, target, t, w')
  {
    hide HasRow, Parse;
    DropStores(Effect(w, DeleteSession(target)), Doomed(w, target, t));
  }

  lemma WithdrawGone(w: World, t: Triple, target: string, w': World, o: Outcome)
    requires RowsNamed(w) && Finishes(w, WithdrawSession(t, target), w', o)
    ensures o == Status(Ok) && !HasBookmark(w', Doomed(w, target, t))
  {
    hide Finishes, RowsNamed;
    RowOfTarget(w, target);
    WithdrawFinishes(w, t, target, w', o);
    DropStores(Effect(w, DeleteSession(target)), Doomed(w, target, t));
  }

  /** Without a target the workspace that goes is the one named. */
  lemma DoomedIsNamed(w: World, t: Triple)
    requires RowsNamed(w) && CleanKey(t.key)
    ensures Doomed(w, Naming(t), t) == t && (t in w.rows ==> HasRow(w, Naming(t)))
  {
    if t in w.rows { ParseExactly(Naming(t), t); }
    if Parse(Naming(t)).Some? {
      var u := Parse(Naming(t)).value;
      ParseExactly(Naming(t), u);
      NamingHalfInjective(t, u);
    }
  }

  /** A delete worksheet that is not refused always succeeds if no call fails. Whichever calls failed, if it is given a
      definite answer the target's session and row are gone, and nothing else but the bookmark, which stays only if its
      listing failed. */
  lemma DropIsExecuted(w: World, id: string, job: Job, evs: seq<Ev>, w': World, st: Status)
    requires RowsNamed(w) && id != "" && id !in w.claimed && job.DropJob? && !Refused(job)
    requires Path(w, OnDecision(id, true, job), evs, w', Stop(st)) && (Definite(Status(st)) || FaultFree(evs))
    ensures var t := Triple(Parse(job.session).value.key, job.bookmark);
            var target := Target(job, t);
            && st == Ok && Withdrawn(w, target, t, w')
            && (FaultFree(evs) ==> !HasBookmark(w', Doomed(w, target, t)))
            && (job.target == "" ==> target == Naming(t) && Doomed(w, target, t) == t && t !in w'.rows)
  {
    hide Path, Begun, Doomed, RowsNamed;
    var own, w1 := Parse(job.session).value, Begun(w, id);
    var t := Triple(own.key, job.bookmark);
    var target := Target(job, t);
    ParseExactly(job.session, own);
    DoomedIsNamed(w, t);
    BegunRows(w, id, target, t, w');
    if FaultFree(evs) {
      assert Finishes(w, OnDecision(id, true, job), w', Status(st));
      BegunFinishes(w, id, job, w', Status(st));
      WithdrawGone(w1, t, target, w', Status(st));
    }
    assert Concludes(w, OnDecision(id, true, job), w', Status(st));
    BegunConcludes(w, id, job, w', Status(st));
    WithdrawConcludes(w1, t, target, w', Status(st));
  }

  lemma BegunRows(w: World, id: string, target: string, t: Triple, w': World)
    ensures var w1 := Begun(w, id);
            && (RowsNamed(w) ==> RowsNamed(w1)) && Doomed(w1, target, t) == Doomed(w, target, t)
            && (Withdrawn(w1, target, t, w') <==> Withdrawn(w, target, t, w'))
  {
  }

  // ---- the first approved decision ----

  function Named(job: Job): Triple
    requires Parse(job.session).Some?
  {
    Triple(Parse(job.session).value.key, job.bookmark)
  }

  /** What a fork worksheet comes to. */
  ghost predicate ForkDecided(w: World, job: Job, evs: seq<Ev>, w': World, st: Status)
    requires job.ForkJob? && Parse(job.session).Some?
  {
    var own, t := Parse(job.session).value, Named(job);
    var parent, child := job.session in w.sessions, Naming(t) in w.sessions;
    && (Definite(Status(st)) ==> st == Ok)
    && (FaultFree(evs) && (parent || !child) ==> (st == Ok <==> Forkable(w, own, t, job.baseRev) && parent))
    && (st == Ok ==> Forkable(w, own, t, job.baseRev) && w'.sessions == w.sessions + {Naming(t)})
    && (st == Ok || (FaultFree(evs) && Forkable(w, own, t, job.baseRev)) ==> Bound(w, own, t, job.baseRev, w'))
  }

  /** What a delete worksheet comes to. */
  ghost predicate DropDecided(w: World, job: Job, evs: seq<Ev>, w': World, st: Status)
    requires job.DropJob? && Parse(job.session).Some?
  {
    var t := Named(job);
    && (Definite(Status(st)) || FaultFree(evs) ==> st == Ok && Withdrawn(w, Target(job, t), t, w'))
    && (FaultFree(evs) ==> !HasBookmark(w', Doomed(w, Target(job, t), t)))
    && (job.target == "" ==> Doomed(w, Target(job, t), t) == t)
  }

  /** What the first approved decision on a worksheet comes to. */
  ghost predicate Decided(w: World, id: string, job: Job, evs: seq<Ev>, w': World, st: Status) {
    if Refused(job) then
      evs != [] && (evs[0].resp.Failed? || (st == Fail(400) && w' == Begun(w, id)))
      && w' == w.(claimed := w'.claimed, started := w'.started)
    else if job.ForkJob? then ForkDecided(w, job, evs, w', st)
    else DropDecided(w, job, evs, w', st)
  }

  lemma FirstDecision(w: World, id: string, job: Job, evs: seq<Ev>, w': World, st: Status)
    requires Sound(w) && id != "" && id !in w.claimed && Path(w, OnDecision(id, true, job), evs, w', Stop(st))
    ensures Decided(w, id, job, evs, w', st)
  {
    hide Path, Sound, ForkDecided, DropDecided;
    if Refused(job) { RefusedIsInert(w, id, job, evs, w', st); }
    else if job.ForkJob? { FirstFork(w, id, job, evs, w', st); }
    else { FirstDrop(w, id, job, evs, w', st); }
  }

  lemma FirstFork(w: World, id: string, job: Job, evs: seq<Ev>, w': World, st: Status)
    requires Sound(w) && id != "" && id !in w.claimed && Path(w, OnDecision(id, true, job), evs, w', Stop(st))
    requires job.ForkJob? && !Refused(job)
    ensures ForkDecided(w, job, evs, w', st)
  {
    hide Path, OnDecision, Sound, Bound, Forkable, Naming, Parse;
    if Definite(Status(st)) { ForkIsExecuted(w, id, job, evs, w', st); }
    if FaultFree(evs) {
      assert Finishes(w, OnDecision(id, true, job), w', Status(st));
      ForkAnswers(w, id, job, w', Status(st));
    }
  }

  lemma FirstDrop(w: World, id: string, job: Job, evs: seq<Ev>, w': World, st: Status)
    requires Sound(w) && id != "" && id !in w.claimed && Path(w, OnDecision(id, true, job), evs, w', Stop(st))
    requires job.DropJob? && !Refused(job)
    ensures DropDecided(w, job, evs, w', st)
  {
    hide Path, OnDecision, Withdrawn, Doomed, Naming, Parse;
    if Definite(Status(st)) || FaultFree(evs) { DropIsExecuted(w, id, job, evs, w', st); }
    ParsedKey(job.session);
    DoomedIsNamed(w, Named(job));
  }

  lemma ParsedKey(name: string)
    ensures Parse(name).Some? ==> CleanKey(Parse(name).value.key)
  {
    if Parse(name).Some? { ParseExactly(name, Parse(name).value); }
  }
}
