/** Session names: `org:repo:bookmark` (helpers.go). */
module Names {
  import opened Strs

  datatype Option<+T> = None | Some(value: T)

  /** A repository. */
  datatype Key = Key(org: string, repo: string)

  /** A bookmark of a repository. */
  datatype Triple = Triple(key: Key, bm: string)

  predicate CleanKey(k: Key) {
    Free(k.org, ':') && Free(k.repo, ':')
  }

  predicate Clean(t: Triple) {
    CleanKey(t.key) && Free(t.bm, ':')
  }

  function Naming(t: Triple): string {
    t.key.org + ":" + t.key.repo + ":" + t.bm
  }

  function Parse(name: string): Option<Triple> {
    var parts := Split(name, ':');
    if |parts| != 3 then None else Some(Triple(Key(parts[0], parts[1]), parts[2]))
  }

  lemma NamingIsJoin(t: Triple)
    ensures Naming(t) == Join([t.key.org, t.key.repo, t.bm], ':')
  {
    var tail := [t.key.repo, t.bm];
    assert [t.key.org, t.key.repo, t.bm][1..] == tail;
    assert tail[1..] == [t.bm];
    assert Join(tail, ':') == t.key.repo + [':'] + t.bm;
  }

  /** A name parses to a triple exactly when the triple has no ':' and the name is its derived name. */
  lemma ParseExactly(name: string, t: Triple)
    ensures Parse(name) == Some(t) <==> Clean(t) && name == Naming(t)
  {
    NamingIsJoin(t);
    if Parse(name) == Some(t) {
      var parts := Split(name, ':');
      JoinSplit(name, ':');
      SplitParts(name, ':');
      assert parts == [t.key.org, t.key.repo, t.bm];
      assert parts[0] in parts && parts[1] in parts && parts[2] in parts;
    }
    if Clean(t) && name == Naming(t) {
      SplitJoin([t.key.org, t.key.repo, t.bm], ':');
    }
  }

  /** Derived names of colon-free triples never collide. */
  lemma NamingInjective(a: Triple, b: Triple)
    requires Clean(a) && Clean(b) && Naming(a) == Naming(b)
    ensures a == b
  {
    ParseExactly(Naming(a), a);
    ParseExactly(Naming(b), b);
  }

  /** Nor does the derived name of a triple whose bookmark may hold a ':' collide with one that is colon-free. */
  lemma NamingHalfInjective(a: Triple, b: Triple)
    requires CleanKey(a.key) && Clean(b) && Naming(a) == Naming(b)
    ensures a == b
  {
    ParseExactly(Naming(b), b);
    var tail := a.key.repo + ":" + a.bm;
    assert Naming(a) == a.key.org + [':'] + tail;
    SplitPrefix(a.key.org, tail, ':');
    SplitPrefix(a.key.repo, a.bm, ':');
    JoinSplit(a.bm, ':');
  }
}
