/** The stores the service keeps in agreement, and the single calls it makes on them:
    agent sessions, jj bookmarks, the Postgres tables (pg.go) and the resolution cache. */
module Stores {
  import opened Strs
  import opened Names

  type Commit = string

  const MAIN := "main"

  /** Position of `main` in a repository jjlab has just created. */
  const ROOT: Commit := "root"

  /** Cache lifetime in nanoseconds (5 s). */
  const TTL: nat := 5_000_000_000

  /** What a bookmark may be created at: the repo head, another bookmark, or a commit id. */
  datatype Rev = Head | Tip(bm: string) | At(sha: Commit)

  datatype Repo = Repo(bms: map<string, Commit>, commits: set<Commit>, head: Commit)

  datatype Row = Row(t: Triple, sid: string)

  datatype Entry = Entry(t: Triple, exp: nat)

  datatype World = World(
    sessions: set<string>,        // agent
    repos: map<Key, Repo>,        // jjlab
    rows: map<Triple, string>,    // table session_repos
    managed: set<Key>,            // table managed_repos
    claimed: set<string>,         // table executed_worksheets
    started: multiset<string>,    // worksheet executions begun so far
    cache: map<string, Entry>,
    now: nat)

  /** One call. The last group is local to the process and cannot fail. */
  datatype Req =
    | ListSessions | EnsureSession(sid: string) | ForkSession(parent: string, sid: string) | DeleteSession(sid: string)
    | ListRepos | PostRepo(key: Key) | ListBookmarks(key: Key)
    | CreateBookmark(t: Triple, rev: Rev) | DropBookmark(t: Triple)
    | GetRow(t: Triple) | GetRowBySession(sid: string) | ListRows | ListRowsForRepo(key: Key)
    | InsertRow(t: Triple, sid: string) | RenameRow(from: Triple, to: Triple, sid: string) | DeleteRow(t: Triple)
    | InsertManaged(key: Key) | ListManaged | Claim(id: string)
    | CacheGet(sid: string) | CachePut(sid: string, t: Triple) | CacheEvict(sid: string)
    | Shuffle(names: set<string>) | StartExec(id: string)

  datatype Resp =
    | Failed                              // transport failure, timeout, 5xx: nothing is known
    | Refused                             // jjlab or the agent answered with another error status
    | Conflict | NotFound | Done
    | Found(row: Option<Row>) | Rows(rows: seq<Row>)
    | Repos(keys: seq<Key>) | Bms(bms: set<string>)
    | Sids(sids: set<string>) | Order(names: seq<string>)
    | First(yes: bool) | Hit(t: Option<Triple>)

  /** What a caller sees of a call, and whether the call took effect: a failed call may have. */
  datatype Ev = Ev(resp: Resp, took: bool)

  ghost predicate Enumerates<T(!new)>(s: seq<T>, xs: set<T>) {
    forall x :: x in s <==> x in xs
  }

  predicate Holds(repos: map<Key, Repo>, t: Triple) {
    t.key in repos && t.bm in repos[t.key].bms
  }

  predicate HasBookmark(w: World, t: Triple) {
    Holds(w.repos, t)
  }

  /** A row without its bookmark. */
  predicate Dangling(w: World, t: Triple) {
    t in w.rows && !HasBookmark(w, t)
  }

  function Position(w: World, t: Triple): Commit
    requires HasBookmark(w, t)
  {
    w.repos[t.key].bms[t.bm]
  }

  /** The commit a revision denotes; bookmarks and commit ids are told apart, and no name means the head. */
  function Resolve(r: Repo, rev: Rev): Option<Commit> {
    match rev
    case Head => Some(r.head)
    case Tip(bm) => if bm in r.bms then Some(r.bms[bm]) else if bm == "" then Some(r.head) else None
    case At(sha) => if sha in r.commits then Some(sha) else None
  }

  /** jjlab creates a bookmark only under a new, colon-free name at a revision it can resolve. */
  predicate Creatable(repos: map<Key, Repo>, t: Triple, rev: Rev) {
    t.key in repos && t.bm !in repos[t.key].bms && Free(t.bm, ':') && Resolve(repos[t.key], rev).Some?
  }

  predicate CanCreate(w: World, t: Triple, rev: Rev) {
    Creatable(w.repos, t, rev)
  }

  function FreshRepo(): Repo {
    Repo(map[MAIN := ROOT], {ROOT}, ROOT)
  }

  /** The repositories with bookmark t at commit c. */
  function Pointed(repos: map<Key, Repo>, t: Triple, c: Commit): map<Key, Repo>
    requires t.key in repos
  {
    var r := repos[t.key];
    repos[t.key := r.(bms := r.bms[t.bm := c])]
  }

  function SetBookmark(w: World, t: Triple, c: Commit): World
    requires t.key in w.repos
  {
    w.(repos := Pointed(w.repos, t, c))
  }

  function Unpointed(repos: map<Key, Repo>, t: Triple): map<Key, Repo>
    requires t.key in repos
  {
    var r := repos[t.key];
    repos[t.key := r.(bms := r.bms - {t.bm})]
  }

  function UnsetBookmark(w: World, t: Triple): World
    requires t.key in w.repos
  {
    w.(repos := Unpointed(w.repos, t))
  }

  /** PRIMARY KEY (org, repo, bookmark) and UNIQUE (session_name). */
  predicate Taken(rows: map<Triple, string>, t: Triple, sid: string) {
    t in rows || sid in rows.Values
  }

  /** The state after a call that takes effect. */
  function Effect(w: World, q: Req): World {
    match q
    case EnsureSession(sid) => w.(sessions := w.sessions + {sid})
    case ForkSession(parent, sid) => if parent in w.sessions then w.(sessions := w.sessions + {sid}) else w
    case DeleteSession(sid) => w.(sessions := w.sessions - {sid})
    case PostRepo(key) => if key in w.repos then w else w.(repos := w.repos[key := FreshRepo()])
    case CreateBookmark(t, rev) =>
      if CanCreate(w, t, rev) then SetBookmark(w, t, Resolve(w.repos[t.key], rev).value) else w
    case DropBookmark(t) => if HasBookmark(w, t) then UnsetBookmark(w, t) else w
    case InsertRow(t, sid) => if Taken(w.rows, t, sid) then w else w.(rows := w.rows[t := sid])
    case RenameRow(from, to, sid) =>
      if from in w.rows && !Taken(w.rows - {from}, to, sid) then w.(rows := (w.rows - {from})[to := sid]) else w
    case DeleteRow(t) => w.(rows := w.rows - {t})
    case InsertManaged(key) => w.(managed := w.managed + {key})
    case Claim(id) => w.(claimed := w.claimed + {id})
    case CachePut(sid, t) => w.(cache := w.cache[sid := Entry(t, w.now + TTL)])
    case CacheEvict(sid) => w.(cache := w.cache - {sid})
    case StartExec(id) => w.(started := w.started + multiset{id})
    case _ => w
  }

  /** The answers a call that works may give in state w. */
  ghost predicate Answers(w: World, q: Req, a: Resp) {
    match q
    case ListSessions => a == Sids(w.sessions)
    case EnsureSession(_) => a == Done
    case ForkSession(parent, sid) =>
      (a == Done && (parent in w.sessions || sid in w.sessions)) || (a == Refused && parent !in w.sessions)
    case DeleteSession(_) => a == Done
    case ListRepos => a.Repos? && Enumerates(a.keys, w.repos.Keys)
    case PostRepo(_) => a == Done
    case ListBookmarks(key) => a == if key in w.repos then Bms(w.repos[key].bms.Keys) else NotFound
    case CreateBookmark(t, rev) =>
      a == (if CanCreate(w, t, rev) then Done else Refused) || (a == Done && HasBookmark(w, t))
    case DropBookmark(t) => a == if HasBookmark(w, t) then Done else Refused
    case GetRow(t) => a == Found(if t in w.rows then Some(Row(t, w.rows[t])) else None)
    case GetRowBySession(sid) => a.Found? &&
      (if a.row.None? then sid !in w.rows.Values
       else var r := a.row.value; r.sid == sid && r.t in w.rows && w.rows[r.t] == sid)
    case ListRows => a.Rows? && Enumerates(a.rows, RowSet(w))
    case ListRowsForRepo(key) => a.Rows? && Enumerates(a.rows, set r | r in RowSet(w) && r.t.key == key)
    case InsertRow(t, sid) => a == if Taken(w.rows, t, sid) then Conflict else Done
    case RenameRow(from, to, sid) =>
      a == if from !in w.rows then NotFound else if Taken(w.rows - {from}, to, sid) then Conflict else Done
    case DeleteRow(_) => a == Done
    case InsertManaged(_) => a == Done
    case ListManaged => a.Repos? && Enumerates(a.keys, w.managed)
    case Claim(id) => a == First(id !in w.claimed)
    case CacheGet(sid) => a == Hit(if sid in w.cache && w.now <= w.cache[sid].exp then Some(w.cache[sid].t) else None)
    case CachePut(_, _) => a == Done
    case CacheEvict(_) => a == Done
    case Shuffle(names) => a.Order? && Enumerates(a.names, names)
    case StartExec(_) => a == Done
  }

  function RowsOf(rows: map<Triple, string>): set<Row> {
    set t | t in rows :: Row(t, rows[t])
  }

  function RowSet(w: World): set<Row> {
    RowsOf(w.rows)
  }

  predicate Local(q: Req) {
    q.CacheGet? || q.CachePut? || q.CacheEvict? || q.Shuffle? || q.StartExec?
  }

  /** A call may fail, with or without having taken effect; otherwise it takes effect and answers truthfully. */
  ghost predicate Legal(w: World, q: Req, e: Ev) {
    if e.resp.Failed? then !Local(q) else e.took && Answers(w, q, e.resp)
  }

  function After(w: World, q: Req, e: Ev): World {
    if e.took then Effect(w, q) else w
  }

  /** jjlab never lists a repository or bookmark whose name holds the separator. */
  predicate CleanRepos(repos: map<Key, Repo>) {
    forall k :: k in repos ==> CleanKey(k) && forall b :: b in repos[k].bms ==> Free(b, ':')
  }

  /** The naming invariant: each row's session is the derived name of its own triple. */
  predicate RowsNamed(w: World) {
    forall t :: t in w.rows ==> Clean(t) && w.rows[t] == Naming(t)
  }

  predicate Sound(w: World) {
    CleanRepos(w.repos) && RowsNamed(w)
  }

  /** Swallowed conflicts are sound: when the table refuses a derived row, that very row is already there. */
  lemma ConflictMeansBound(w: World, t: Triple, from: Triple)
    requires RowsNamed(w) && Clean(t) && Clean(from)
    ensures Taken(w.rows, t, Naming(t)) <==> t in w.rows && w.rows[t] == Naming(t)
    ensures from != t ==> (Taken(w.rows - {from}, t, Naming(t)) <==> t in w.rows && w.rows[t] == Naming(t))
  {
    if Naming(t) in w.rows.Values {
      var u :| u in w.rows && w.rows[u] == Naming(t);
      NamingInjective(u, t);
    }
    if Naming(t) in (w.rows - {from}).Values {
      var u :| u in w.rows - {from} && w.rows[u] == Naming(t);
      NamingInjective(u, t);
    }
  }
}
