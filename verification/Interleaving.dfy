/** Any number of handlers running at once. One action is one call of one handler, the start of a
    handler, a crash of the process (handlers and cache are lost, the stores survive), or a change
    made by jjlab, the agent or time. Events may be lost, duplicated and reordered: any handler may
    be started at any moment, any number of times. */
module Interleaving {
  import opened Names
  import opened Stores
  import opened Handlers

  datatype Sys = Sys(w: World, procs: map<nat, Pc>)

  datatype Act =
    | Spawn(i: nat, pc: Pc)
    | Call(i: nat, e: Ev)
    | Crash
    | Env(sessions: set<string>, repos: map<Key, Repo>, now: nat)

  /** The entry points of the service. */
  ghost predicate Starts(pc: Pc) {
    || (exists e: Event :: pc == OnEvent(e))
    || (exists id: string, approved: bool, job: Job :: pc == OnDecision(id, approved, job))
    || pc.AdoptGet? || pc.ResolveHit? || pc.PassSessions?
  }

  ghost predicate Next(s: Sys, act: Act, s': Sys) {
    match act
    case Spawn(i, pc) => i !in s.procs && Starts(pc) && s' == s.(procs := s.procs[i := pc])
    case Call(i, e) =>
      && i in s.procs && !s.procs[i].End?
      && Legal(s.w, Request(s.procs[i]), e)
      && s' == Sys(After(s.w, Request(s.procs[i]), e), s.procs[i := Feed(s.procs[i], e.resp)])
    case Crash => s' == Sys(s.w.(cache := map[]), map[])
    case Env(sessions, repos, now) =>
      && CleanRepos(repos) && s.w.now <= now
      && s' == s.(w := s.w.(sessions := sessions, repos := repos, now := now))
  }

  /** A run: the states it goes through and the actions between them. */
  ghost predicate Behavior(b: seq<Sys>, acts: seq<Act>) {
    && |b| == |acts| + 1
    && forall k :: 0 <= k < |acts| ==> Next(b[k], acts[k], b[k + 1])
  }
}
