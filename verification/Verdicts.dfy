/** How a lifecycle event is answered, told from the state before it: the answer of a fault-free run, and of every run
    that does not ask to be tried again (events_sub.go, client_jj.go, errs.go). */
module Verdicts {
  import opened Names
  import opened Stores
  import opened Handlers
  import opened BigStep
  import opened Stabilise

  /** A session without a workspace gets one if its repository is new, or has `main`, or the bookmark already. */
  function CreateVerdict(w: World, t: Triple): Status {
    if t in w.rows || Anchorable(w, t) then Ok else Fail(502)
  }

  /** A bookmark is there already, or branches off another in its repository; no name stands for the head. */
  function BranchVerdict(w: World, t: Triple, src: string): Status {
    if t.key !in w.repos then Fail(404)
    else if HasBookmark(w, t) || HasBookmark(w, Triple(t.key, src)) || src == "" then Ok
    else Fail(502)
  }

  /** A fork needs its parent's bookmark; a parent without a row needs what a creation needs, and that is enough. */
  function ForkVerdict(w: World, t: Triple, parentSid: string): Status {
    if t in w.rows then Ok
    else match Parse(parentSid)
      case None => BranchVerdict(w, t, MAIN)
      case Some(p) =>
        if p.key != t.key then Fail(400) else if p in w.rows then BranchVerdict(w, t, p.bm) else CreateVerdict(w, p)
  }

  function RenameVerdict(w: World, from: Triple, to: Triple): Status {
    if from.key != to.key then Fail(400)
    else if from in w.rows then BranchVerdict(w, to, from.bm)
    else CreateVerdict(w, to)
  }

  function Verdict(w: World, e: Event): Status {
    match e
    case Created(sid) => (match Parse(sid) case None => Fail(400) case Some(t) => CreateVerdict(w, t))
    case Forked(sid, parent) => (match Parse(sid) case None => Fail(400) case Some(t) => ForkVerdict(w, t, parent))
    case Renamed(from, to) =>
      if Parse(from).None? || Parse(to).None? then Fail(400)
      else RenameVerdict(w, Parse(from).value, Parse(to).value)
    case Deleted(sid) => if Parse(sid).None? then Fail(400) else Ok
  }

  lemma CreateVerdictHolds(w: World, t: Triple)
    requires RowsNamed(w) && Clean(t)
    ensures CreateStatus(w, t, Naming(t)) == CreateVerdict(w, t)
    ensures CreateVerdict(w, t).Fail? ==> Create(w, t, Naming(t)) == w
  {
    hide Naming;
    ConflictMeansBound(w, t, t);
    if t in w.rows { CreateBound(w, t); } else { CreateOkIff(w, t); }
  }

  lemma BranchVerdictHolds(w: World, t: Triple, sid: string, src: string)
    requires Clean(t)
    ensures AnchorStatus(w, t, Tip(src)) == BranchVerdict(w, t, src)
    ensures BranchVerdict(w, t, src).Fail? ==> Ensured(w, t, Tip(src), sid) == w
  {
  }

  lemma ForkVerdictHolds(w: World, t: Triple, parentSid: string)
    requires RowsNamed(w) && Clean(t)
    ensures ForkStatus(w, t, Naming(t), parentSid) == ForkVerdict(w, t, parentSid)
    ensures ForkVerdict(w, t, parentSid).Fail? ==> Fork(w, t, Naming(t), parentSid) == w
  {
    hide Naming, Create, CreateStatus, Ensured, AnchorStatus, CreateVerdict, BranchVerdict;
    ConflictMeansBound(w, t, t);
    if t !in w.rows {
      if Parse(parentSid).None? {
        BranchVerdictHolds(w, t, Naming(t), MAIN);
      } else {
        var p := Parse(parentSid).value;
        ParseExactly(parentSid, p);
        BranchVerdictHolds(w, t, Naming(t), p.bm);
        CreateVerdictHolds(w, p);
        if p.key == t.key && p !in w.rows && CreateVerdict(w, p).Ok? { ParentSuffices(w, t, p); }
      }
    }
  }

  /** Once the parent has its workspace a fork of it can be made. */
  lemma ParentSuffices(w: World, t: Triple, p: Triple)
    requires RowsNamed(w) && Clean(t) && Clean(p) && t.key == p.key && p !in w.rows && CreateVerdict(w, p).Ok?
    ensures AnchorStatus(Create(w, p, Naming(p)), t, Tip(p.bm)).Ok?
  {
    hide Naming, Create;
    CreateStores(w, p);
    BranchVerdictHolds(Create(w, p, Naming(p)), t, Naming(t), p.bm);
  }

  lemma RenameVerdictHolds(w: World, from: Triple, to: Triple)
    requires RowsNamed(w) && Clean(to) && from.key == to.key
    ensures RenameStatus(w, from, to) == RenameVerdict(w, from, to)
    ensures RenameVerdict(w, from, to).Fail? ==> Rename(w, from, to) == w
  {
    hide Naming, Create, CreateStatus, AnchorStatus, CreateVerdict, BranchVerdict;
    if from in w.rows { BranchVerdictHolds(w, to, Naming(to), from.bm); } else { CreateVerdictHolds(w, to); }
  }

  lemma VerdictHolds(w: World, e: Event)
    requires RowsNamed(w)
    ensures HandleStatus(w, e) == Verdict(w, e)
    ensures Verdict(w, e).Fail? ==> Handle(w, e) == w
  {
    hide Naming, Create, CreateStatus, Fork, ForkStatus, Rename, RenameStatus, Delete;
    hide CreateVerdict, ForkVerdict;
    var pc := OnEvent(e);
    if pc.CreatedLookup? {
      ParseExactly(pc.sid, pc.t);
      CreateVerdictHolds(w, pc.t);
    } else if pc.ForkedLookup? {
      ParseExactly(pc.sid, pc.t);
      ForkVerdictHolds(w, pc.t, pc.parentSid);
    } else if pc.RenameGet? {
      ParseExactly(e.to, pc.to);
      RenameVerdictHolds(w, pc.from, pc.to);
    }
  }

  /** A fault-free run of an event answers so, and changes nothing if it answers with an error. */
  lemma EventAnswers(w: World, e: Event, w': World, o: Outcome)
    requires RowsNamed(w) && Finishes(w, OnEvent(e), w', o)
    ensures o == Status(Verdict(w, e)) && (Verdict(w, e).Fail? ==> w' == w)
  {
    hide Handle, HandleStatus, Verdict;
    EventFinishes(w, e, w', o);
    VerdictHolds(w, e);
  }
}
