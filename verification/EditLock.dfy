/** The optimistic lock of `edit` (tools.go): each call reads the file and its blob sha, and commits the
    edited text only if that is still the file's sha. Any number of calls run interleaved, and other
    writers change or remove the file at any time. */
module EditLock {
  import opened Names
  import opened LineEdit

  /** What an edit is asked to do. */
  datatype Order = Order(a: int, b: int, content: string)

  /** Where a call is: about to read, about to commit, or answered. */
  datatype Stage = Reading(o: Order) | Committing(o: Order, base: string, text: string) | Answered(ok: bool)

  /** One change of the file that took effect: by an edit call, or by some other writer. */
  datatype Change = ByEdit(i: nat, o: Order) | ByOther(file: Option<string>)

  /** The file, or none; the calls; and, for the statement only, the changes in the order they took effect. */
  datatype State = State(file: Option<string>, calls: map<nat, Stage>, log: seq<Change>)

  datatype Step =
    | Start(i: nat, o: Order)
    | Read(i: nat, fails: bool)
    | Commit(i: nat, fails: bool, took: bool)
    | Other(file: Option<string>)

  /** Blob shas: never empty, and different for different contents. */
  ghost predicate Ideal(sha: string -> string) {
    (forall s :: sha(s) != "") && forall s, t :: sha(s) == sha(t) ==> s == t
  }

  /** After reading: an edit that cannot be carried out is answered with an error, and nothing is committed. */
  function AfterRead(o: Order, file: Option<string>, sha: string -> string): Stage {
    if file.None? then Answered(false)
    else
      var r := LineEdited(file.value, o.a, o.b, o.content);
      if r.Edited? then Committing(o, sha(file.value), r.text) else Answered(false)
  }

  /** jjlab takes a commit with a base sha only if that is the file's current one; no base means no lock. */
  predicate Current(file: Option<string>, base: string, sha: string -> string) {
    base == "" || (file.Some? && sha(file.value) == base)
  }

  /** A failed call may have taken effect; an answer tells the truth. */
  ghost predicate Next(s: State, step: Step, s': State, sha: string -> string) {
    match step
    case Start(i, o) => i !in s.calls && s' == s.(calls := s.calls[i := Reading(o)])
    case Read(i, fails) =>
      && i in s.calls && s.calls[i].Reading?
      && s' == s.(calls := s.calls[i := if fails then Answered(false) else AfterRead(s.calls[i].o, s.file, sha)])
    case Commit(i, fails, took) =>
      && i in s.calls && s.calls[i].Committing?
      && var c := s.calls[i];
         var fits := Current(s.file, c.base, sha);
         && (!fails ==> took)
         && s' == (if took && fits then State(Some(c.text), s.calls[i := Answered(!fails)], s.log + [ByEdit(i, c.o)])
                   else s.(calls := s.calls[i := Answered(false)]))
    case Other(file) => s' == s.(file := file, log := s.log + [ByOther(file)])
  }

  ghost predicate Behavior(b: seq<State>, steps: seq<Step>, sha: string -> string) {
    |b| == |steps| + 1 && forall k :: 0 <= k < |steps| ==> Next(b[k], steps[k], b[k + 1], sha)
  }

  /** The file after a list of changes, each edit applied to what the ones before it left. */
  function Fold(file: Option<string>, log: seq<Change>): Option<string> {
    if log == [] then file
    else Changed(Fold(file, log[..|log| - 1]), log[|log| - 1])
  }

  function Changed(file: Option<string>, c: Change): Option<string> {
    match c
    case ByOther(f) => f
    case ByEdit(_, o) =>
      if file.None? then None
      else
        var r := LineEdited(file.value, o.a, o.b, o.content);
        if r.Edited? then Some(r.text) else file
  }

  /** Every edit among the changes could be carried out on the text it found. */
  predicate AllCarried(file: Option<string>, log: seq<Change>) {
    log == [] ||
    (AllCarried(file, log[..|log| - 1]) &&
     (log[|log| - 1].ByEdit? ==> Carried(Fold(file, log[..|log| - 1]), log[|log| - 1].o)))
  }

  predicate Carried(file: Option<string>, o: Order) {
    file.Some? && LineEdited(file.value, o.a, o.b, o.content).Edited?
  }

  /** The changes call i made. */
  function Made(log: seq<Change>, i: nat): nat {
    if log == [] then 0
    else Made(log[..|log| - 1], i) + (if log[|log| - 1].ByEdit? && log[|log| - 1].i == i then 1 else 0)
  }

  /** What a call is about to commit is its order applied to the text whose sha it read. */
  ghost predicate Faithful(st: Stage, sha: string -> string) {
    st.Committing? ==>
      exists text :: sha(text) == st.base && LineEdited(text, st.o.a, st.o.b, st.o.content) == Edited(st.text)
  }

  ghost predicate Serial(s0: State, s: State, sha: string -> string) {
    && s.file == Fold(s0.file, s.log) && AllCarried(s0.file, s.log)
    && (forall i :: i in s.calls ==> Faithful(s.calls[i], sha))
    && (forall i :: i !in s.calls || !s.calls[i].Answered? ==> Made(s.log, i) == 0)
    && (forall i :: Made(s.log, i) <= 1)
    && (forall i :: i in s.calls && s.calls[i] == Answered(true) ==> Made(s.log, i) == 1)
  }

  lemma MadeLast(log: seq<Change>, c: Change, i: nat)
    ensures Made(log + [c], i) == Made(log, i) + if c.ByEdit? && c.i == i then 1 else 0
  {
    assert (log + [c])[..|log|] == log;
  }

  lemma FoldLast(file: Option<string>, log: seq<Change>, c: Change)
    ensures Fold(file, log + [c]) == Changed(Fold(file, log), c)
    ensures AllCarried(file, log) && (c.ByEdit? ==> Carried(Fold(file, log), c.o)) ==> AllCarried(file, log + [c])
  {
    assert (log + [c])[..|log|] == log;
  }

  /** A commit that takes effect is its order applied to the file as it is at that moment: an edit never commits
      without a base. */
  lemma CommitFits(file: Option<string>, c: Stage, sha: string -> string, i: nat)
    requires Ideal(sha) && c.Committing? && Faithful(c, sha) && Current(file, c.base, sha)
    ensures Carried(file, c.o) && Changed(file, ByEdit(i, c.o)) == Some(c.text)
  {
    var text :| sha(text) == c.base && LineEdited(text, c.o.a, c.o.b, c.o.content) == Edited(c.text);
    assert sha(text) != "";
  }

  lemma CommitNext(s0: State, s: State, i: nat, fails: bool, took: bool, s': State, sha: string -> string)
    requires Ideal(sha) && Serial(s0, s, sha) && Next(s, Commit(i, fails, took), s', sha)
    ensures Serial(s0, s', sha)
  {
    hide Ideal, LineEdited, Current, Changed, Carried;
    var c := s.calls[i];
    if took && Current(s.file, c.base, sha) {
      CommitFits(s.file, c, sha, i);
      Logged(s0, s, ByEdit(i, c.o), s');
    }
  }

  lemma SerialNext(s0: State, s: State, step: Step, s': State, sha: string -> string)
    requires Ideal(sha) && Serial(s0, s, sha) && Next(s, step, s', sha)
    ensures Serial(s0, s', sha)
  {
    hide Changed, Carried, Current;
    match step {
      case Commit(i, fails, took) => CommitNext(s0, s, i, fails, took, s', sha);
      case Other(file) => OtherNext(s0, s, file, s', sha);
      case _ =>
    }
  }

  lemma OtherNext(s0: State, s: State, file: Option<string>, s': State, sha: string -> string)
    requires Serial(s0, s, sha) && Next(s, Other(file), s', sha)
    ensures Serial(s0, s', sha)
  {
    Logged(s0, s, ByOther(file), s');
  }

  lemma Logged(s0: State, s: State, c: Change, s': State)
    requires s.file == Fold(s0.file, s.log) && s'.log == s.log + [c] && s'.file == Changed(s.file, c)
    requires AllCarried(s0.file, s.log) && (c.ByEdit? ==> Carried(s.file, c.o))
    ensures s'.file == Fold(s0.file, s'.log) && AllCarried(s0.file, s'.log)
    ensures forall i :: Made(s'.log, i) == Made(s.log, i) + if c.ByEdit? && c.i == i then 1 else 0
  {
    FoldLast(s0.file, s.log, c);
    forall i ensures Made(s'.log, i) == Made(s.log, i) + if c.ByEdit? && c.i == i then 1 else 0 {
      MadeLast(s.log, c, i);
    }
  }

  /** Edits are serialisable. In every interleaving the file is the fold of the changes in the order they took
      effect, each edit applied to the very text it found; a call that was told it succeeded made exactly one
      of them, so none is lost, and no call makes more. */
  lemma {:induction false} EditsAreSerial(b: seq<State>, steps: seq<Step>, n: nat, sha: string -> string)
    requires Ideal(sha) && Behavior(b, steps, sha) && n < |b| && b[0].calls == map[] && b[0].log == []
    ensures Serial(b[0], b[n], sha)
  {
    if n > 0 {
      EditsAreSerial(b, steps, n - 1, sha);
      assert Next(b[n - 1], steps[n - 1], b[n - 1 + 1], sha);
      SerialNext(b[0], b[n - 1], steps[n - 1], b[n], sha);
    }
  }

  /** No other writer, and no commit whose answer gets lost. */
  predicate Quiet(steps: seq<Step>) {
    forall k :: 0 <= k < |steps| ==> !steps[k].Other? && (steps[k].Commit? ==> !steps[k].fails)
  }

  /** The changes are the successful calls, one each. */
  ghost predicate OnlySuccesses(s: State) {
    && (forall c :: c in s.log ==> c.ByEdit?)
    && forall i :: Made(s.log, i) == if i in s.calls && s.calls[i] == Answered(true) then 1 else 0
  }

  lemma SuccessesNext(s: State, step: Step, s': State, sha: string -> string)
    requires OnlySuccesses(s) && Next(s, step, s', sha) && !step.Other? && (step.Commit? ==> !step.fails)
    ensures OnlySuccesses(s')
  {
    if s'.log != s.log {
      var c := ByEdit(step.i, s.calls[step.i].o);
      assert s'.log == s.log + [c];
      forall i ensures Made(s'.log, i) == Made(s.log, i) + if c.i == i then 1 else 0 { MadeLast(s.log, c, i); }
    }
  }

  /** Then the final text is the successful edits folded over the first text, in the order they were committed. */
  lemma {:induction false} TextIsSuccessesFolded(b: seq<State>, steps: seq<Step>, n: nat, sha: string -> string)
    requires Ideal(sha) && Behavior(b, steps, sha) && n < |b| && b[0].calls == map[] && b[0].log == [] && Quiet(steps)
    ensures OnlySuccesses(b[n]) && b[n].file == Fold(b[0].file, b[n].log)
  {
    EditsAreSerial(b, steps, n, sha);
    if n > 0 {
      TextIsSuccessesFolded(b, steps, n - 1, sha);
      assert Next(b[n - 1], steps[n - 1], b[n - 1 + 1], sha);
      SuccessesNext(b[n - 1], steps[n - 1], b[n], sha);
    }
  }

  // ---- when an edit succeeds ----

  /** A commit of call i that is answered. */
  predicate Commits(steps: seq<Step>, l: nat, i: nat) {
    l < |steps| && steps[l].Commit? && steps[l].i == i && !steps[l].fails
  }

  /** Call i, asked for o at step j, read the file at step k and has not been answered by a failure up to n. */
  ghost predicate ReadAt(b: seq<State>, steps: seq<Step>, i: nat, o: Order, j: nat, k: nat, n: nat) {
    && j < k < n < |b| == |steps| + 1
    && steps[j] == Start(i, o) && steps[k] == Read(i, false)
    && forall l :: k < l < n && steps[l].Commit? && steps[l].i == i ==> !steps[l].fails
  }

  /** A call keeps its order until it has read. */
  lemma {:induction false} Waiting(b: seq<State>, steps: seq<Step>, sha: string -> string, i: nat, o: Order, j: nat,
                                   m: nat)
    requires Behavior(b, steps, sha) && j < m < |b| && steps[j] == Start(i, o)
    ensures i in b[m].calls && (b[m].calls[i].Reading? ==> b[m].calls[i].o == o)
  {
    assert Next(b[m - 1], steps[m - 1], b[m - 1 + 1], sha);
    if m - 1 > j { Waiting(b, steps, sha, i, o, j, m - 1); }
  }

  /** Where the call is at n: answered with an error if its edit could not be carried out on the file it read, else
      about to commit, or answered by its commit, with success exactly if that found the file unchanged. */
  ghost predicate CallAt(b: seq<State>, steps: seq<Step>, sha: string -> string, i: nat, o: Order, k: nat, n: nat)
    requires k < |b| && n < |b| == |steps| + 1
  {
    && i in b[n].calls
    && match b[n].calls[i]
       case Reading(_) => false
       case Committing(o', base, text) =>
         && Carried(b[k].file, o) && o' == o && base == sha(b[k].file.value)
         && Some(text) == Changed(b[k].file, ByEdit(i, o))
       case Answered(ok) =>
         if !Carried(b[k].file, o) then !ok
         else exists l :: k < l < n && Commits(steps, l, i) && CommittedAt(b, i, o, k, l, ok)
  }

  /** A commit at l has found the file read at k unchanged and replaced it, or changed and left it. */
  ghost predicate CommittedAt(b: seq<State>, i: nat, o: Order, k: nat, l: nat, ok: bool)
    requires k < |b| && l + 1 < |b|
  {
    (ok <==> b[l].file == b[k].file) && b[l + 1].file == if ok then Changed(b[l].file, ByEdit(i, o)) else b[l].file
  }

  lemma {:induction false} CallProceeds(b: seq<State>, steps: seq<Step>, sha: string -> string, i: nat, o: Order,
                                        j: nat, k: nat, n: nat)
    requires Ideal(sha) && Behavior(b, steps, sha) && ReadAt(b, steps, i, o, j, k, n)
    ensures CallAt(b, steps, sha, i, o, k, n)
  {
    hide LineEdited;
    if n == k + 1 {
      Waiting(b, steps, sha, i, o, j, k);
      assert Next(b[k], steps[k], b[k + 1], sha);
    } else {
      CallProceeds(b, steps, sha, i, o, j, k, n - 1);
      assert Next(b[n - 1], steps[n - 1], b[n - 1 + 1], sha);
      if Commits(steps, n - 1, i) {
        assert CommittedAt(b, i, o, k, n - 1, b[n].calls[i].ok);
      }
    }
  }

  lemma {:induction false} Stays(b: seq<State>, steps: seq<Step>, sha: string -> string, i: nat, m: nat, n: nat)
    requires Behavior(b, steps, sha) && m <= n < |b| && i in b[m].calls && b[m].calls[i].Answered?
    ensures i in b[n].calls && b[n].calls[i] == b[m].calls[i]
  {
    if m < n {
      Stays(b, steps, sha, i, m, n - 1);
      assert Next(b[n - 1], steps[n - 1], b[n - 1 + 1], sha);
    }
  }

  /** A commit that is answered settles the call. */
  lemma AfterCommit(b: seq<State>, steps: seq<Step>, sha: string -> string, i: nat, o: Order, j: nat, k: nat, l: nat,
                    n: nat)
    requires Ideal(sha) && Behavior(b, steps, sha) && ReadAt(b, steps, i, o, j, k, n)
    requires k < l < n && Commits(steps, l, i)
    ensures i in b[n].calls && b[n].calls[i] == Answered(b[l].file == b[k].file) && Carried(b[k].file, o)
    ensures b[l + 1].file == if b[l].file == b[k].file then Changed(b[k].file, ByEdit(i, o)) else b[l].file
  {
    hide LineEdited, Changed;
    CallProceeds(b, steps, sha, i, o, j, k, l);
    assert Next(b[l], steps[l], b[l + 1], sha);
    Stays(b, steps, sha, i, l + 1, n);
  }

  /** An edit none of whose calls fails is answered with success if and only if the file it read is there, its order can
      be carried out on it, and its commit found the same content, which the edit has then replaced; it is answered with
      an error if and only if the order cannot be carried out, or the commit found another content, and left it. */
  lemma SucceedsIff(b: seq<State>, steps: seq<Step>, sha: string -> string, i: nat, o: Order, j: nat, k: nat, n: nat)
    requires Ideal(sha) && Behavior(b, steps, sha) && ReadAt(b, steps, i, o, j, k, n)
    ensures i in b[n].calls
    ensures b[n].calls[i] == Answered(true) <==>
            Carried(b[k].file, o) && exists l :: k < l < n && Commits(steps, l, i) && b[l].file == b[k].file
    ensures b[n].calls[i] == Answered(false) <==>
            !Carried(b[k].file, o) || exists l :: k < l < n && Commits(steps, l, i) && b[l].file != b[k].file
    ensures forall l :: k < l < n && Commits(steps, l, i) ==>
              b[l + 1].file == if b[l].file == b[k].file then Changed(b[k].file, ByEdit(i, o)) else b[l].file
  {
    hide LineEdited, Changed, Carried, Ideal, Behavior;
    CallProceeds(b, steps, sha, i, o, j, k, n);
    forall l | k < l < n && Commits(steps, l, i)
      ensures b[n].calls[i] == Answered(b[l].file == b[k].file) && Carried(b[k].file, o)
      ensures b[l + 1].file == if b[l].file == b[k].file then Changed(b[k].file, ByEdit(i, o)) else b[l].file
    {
      AfterCommit(b, steps, sha, i, o, j, k, l, n);
    }
  }

  /** An edit one of whose calls fails is answered with an error, whether or not its commit took effect. */
  lemma FailureIsReported(b: seq<State>, steps: seq<Step>, sha: string -> string, i: nat, l: nat, n: nat)
    requires Behavior(b, steps, sha) && l < n < |b|
    requires steps[l] == Read(i, true) || (steps[l].Commit? && steps[l].i == i && steps[l].fails)
    ensures i in b[n].calls && b[n].calls[i] == Answered(false)
  {
    hide LineEdited;
    assert Next(b[l], steps[l], b[l + 1], sha);
    Stays(b, steps, sha, i, l + 1, n);
  }

  /** Left alone, an edit that can be carried out is: from any state there is a run in which it reads, commits and
      succeeds. */
  lemma AloneItSucceeds(s: State, i: nat, o: Order, sha: string -> string) returns (b: seq<State>, steps: seq<Step>)
    requires i !in s.calls && Carried(s.file, o)
    ensures Behavior(b, steps, sha) && steps == [Start(i, o), Read(i, false), Commit(i, false, true)]
    ensures b[0] == s && b[3].file == Changed(s.file, ByEdit(i, o))
    ensures i in b[3].calls && b[3].calls[i] == Answered(true)
  {
    steps := [Start(i, o), Read(i, false), Commit(i, false, true)];
    var text := LineEdited(s.file.value, o.a, o.b, o.content).text;
    var s1 := s.(calls := s.calls[i := Reading(o)]);
    var s2 := s1.(calls := s1.calls[i := Committing(o, sha(s.file.value), text)]);
    b := [s, s1, s2, State(Some(text), s2.calls[i := Answered(true)], s.log + [ByEdit(i, o)])];
  }

  /** The file on jjlab, as one edit call sees it. */
  class RemoteFile {
    var file: Option<string>
    const sha: string -> string

    constructor (file: Option<string>, sha: string -> string)
      ensures this.file == file && this.sha == sha
    {
      this.file := file;
      this.sha := sha;
    }

    /** Other writers, between any two calls. */
    method Others()
      modifies this
    {
      file := *;
    }

    /** The file and its sha, or nothing when it is missing or the call fails. */
    method ReadRaw() returns (text: Option<string>, base: string, failed: bool)
      ensures text == if failed then None else file
      ensures text.Some? ==> base == sha(file.value)
    {
      var fails := *;
      if fails || file.None? {
        return None, "", fails;
      }
      return file, sha(file.value), false;
    }

    /** A commit with a base sha. A failed call may still have taken effect. */
    method CommitUpdate(text: string, base: string) returns (ok: bool, ghost failed: bool)
      modifies this
      ensures ok <==> !failed && Current(old(file), base, sha)
      ensures ok ==> file == Some(text)
      ensures file == old(file) || (Current(old(file), base, sha) && file == Some(text))
    {
      var fails, took := *, *;
      var fits := base == "" || (file.Some? && sha(file.value) == base);
      if fits && (took || !fails) {
        file := Some(text);
      }
      ok, failed := fits && !fails, fails;
    }

    /** One edit call, other writers interfering. `found` is the file as the commit found it: if the call
        succeeds, the result is the edit applied to exactly that; whatever the answer, nothing else happened. If no
        call failed, it succeeds exactly if the edit can be carried out on the file read, and the commit found the
        same. */
    method Edit(startLine: int, endLine: int, content: string)
        returns (ok: bool, ghost read: Option<string>, ghost found: Option<string>, ghost failed: bool)
      requires Ideal(sha)
      modifies this
      ensures read == old(file)
      ensures ok ==> !failed && Carried(found, Order(startLine, endLine, content))
      ensures ok ==> file == Changed(found, ByEdit(0, Order(startLine, endLine, content)))
      ensures file == found || file == Changed(found, ByEdit(0, Order(startLine, endLine, content)))
      ensures !failed ==> (ok <==> Carried(read, Order(startLine, endLine, content)) && found == read)
      ensures !failed && !ok ==> file == found
    {
      read, found := file, file;
      var text, base, f := ReadRaw();
      failed := f;
      if text.None? {
        return false, read, found, failed;
      }
      var r := ApplyLineEdit(text.value, startLine, endLine, content);
      if !r.Edited? {
        return false, read, found, failed;
      }
      Others();
      found := file;
      ok, failed := CommitUpdate(r.text, base);
    }
  }
}
