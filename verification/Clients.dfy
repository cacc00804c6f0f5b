/** What the service calls, as objects with state: the agent, jjlab, the Postgres store and its own
    session cache (client_agent.go, client_jj.go, pg.go, sessions_http.go). Each remote method may fail, and
    a call that fails may have taken effect all the same; `took` says whether it did. */
module Clients {
  import opened Names
  import opened Stores

  /** Whether a remote call fails, and whether it takes effect. */
  method Weather() returns (fails: bool, effective: bool)
    ensures !fails ==> effective
  {
    fails, effective := *, *;
    if !fails {
      effective := true;
    }
  }

  /** The elements of a set in some order. */
  method Listing<T(==, !new)>(xs: set<T>) returns (s: seq<T>)
    ensures Enumerates(s, xs)
  {
    s := [];
    var rest := xs;
    while rest != {}
      invariant rest <= xs
      invariant Enumerates(s, xs - rest)
      decreases |rest|
    {
      var x :| x in rest;
      s := s + [x];
      rest := rest - {x};
    }
    assert xs - rest == xs;
  }

  class Agent {
    var sessions: set<string>

    constructor (sessions: set<string>)
      ensures this.sessions == sessions
    {
      this.sessions := sessions;
    }

    method ListSessions() returns (a: Resp)
      ensures a == Failed || a == Sids(sessions)
    {
      var fails, _ := Weather();
      a := if fails then Failed else Sids(sessions);
    }

    method EnsureSession(sid: string) returns (a: Resp, ghost took: bool)
      modifies this
      ensures a == Failed || (took && a == Done)
      ensures sessions == if took then old(sessions) + {sid} else old(sessions)
    {
      var fails, effective := Weather();
      if effective {
        sessions := sessions + {sid};
      }
      a, took := if fails then Failed else Done, effective;
    }

    method ForkSession(parent: string, sid: string) returns (a: Resp, ghost took: bool)
      modifies this
      ensures a == Failed || (took && a == if parent in old(sessions) then Done else Refused)
      ensures sessions == if took && parent in old(sessions) then old(sessions) + {sid} else old(sessions)
    {
      var fails, effective := Weather();
      var known := parent in sessions;
      if effective && known {
        sessions := sessions + {sid};
      }
      a, took := if fails then Failed else if known then Done else Refused, effective;
    }

    method DeleteSession(sid: string) returns (a: Resp, ghost took: bool)
      modifies this
      ensures a == Failed || (took && a == Done)
      ensures sessions == if took then old(sessions) - {sid} else old(sessions)
    {
      var fails, effective := Weather();
      if effective {
        sessions := sessions - {sid};
      }
      a, took := if fails then Failed else Done, effective;
    }
  }

  class JjLab {
    var repos: map<Key, Repo>

    constructor (repos: map<Key, Repo>)
      ensures this.repos == repos
    {
      this.repos := repos;
    }

    method ListRepos() returns (a: Resp)
      ensures a == Failed || (a.Repos? && Enumerates(a.keys, repos.Keys))
    {
      var fails, _ := Weather();
      var keys := Listing(repos.Keys);
      a := if fails then Failed else Repos(keys);
    }

    method PostRepo(key: Key) returns (a: Resp, ghost took: bool)
      modifies this
      ensures a == Failed || (took && a == Done)
      ensures repos == if took && key !in old(repos) then old(repos)[key := FreshRepo()] else old(repos)
    {
      var fails, effective := Weather();
      if effective && key !in repos {
        repos := repos[key := FreshRepo()];
      }
      a, took := if fails then Failed else Done, effective;
    }

    method ListBookmarks(key: Key) returns (a: Resp)
      ensures a == Failed || a == if key in repos then Bms(repos[key].bms.Keys) else NotFound
    {
      var fails, _ := Weather();
      a := if fails then Failed else if key in repos then Bms(repos[key].bms.Keys) else NotFound;
    }

    /** An existing bookmark is never moved. */
    method CreateBookmark(t: Triple, rev: Rev) returns (a: Resp, ghost took: bool)
      modifies this
      ensures var can := Creatable(old(repos), t, rev);
              && (a == Failed || (took && a == if can then Done else Refused))
              && repos == if took && can then Pointed(old(repos), t, Resolve(old(repos)[t.key], rev).value)
                          else old(repos)
    {
      var fails, effective := Weather();
      var can := Creatable(repos, t, rev);
      if effective && can {
        repos := Pointed(repos, t, Resolve(repos[t.key], rev).value);
      }
      a, took := if fails then Failed else if can then Done else Refused, effective;
    }

    method DropBookmark(t: Triple) returns (a: Resp, ghost took: bool)
      modifies this
      ensures a == Failed || (took && a == if Holds(old(repos), t) then Done else Refused)
      ensures repos == if took && Holds(old(repos), t) then Unpointed(old(repos), t) else old(repos)
    {
      var fails, effective := Weather();
      var has := Holds(repos, t);
      if effective && has {
        repos := Unpointed(repos, t);
      }
      a, took := if fails then Failed else if has then Done else Refused, effective;
    }
  }

  class Store {
    var rows: map<Triple, string>
    var managed: set<Key>
    var claimed: set<string>

    constructor (rows: map<Triple, string>, managed: set<Key>, claimed: set<string>)
      ensures this.rows == rows && this.managed == managed && this.claimed == claimed
    {
      this.rows, this.managed, this.claimed := rows, managed, claimed;
    }

    method GetRow(t: Triple) returns (a: Resp)
      ensures a == Failed || a == Found(if t in rows then Some(Row(t, rows[t])) else None)
    {
      var fails, _ := Weather();
      a := if fails then Failed else Found(if t in rows then Some(Row(t, rows[t])) else None);
    }

    method GetRowBySession(sid: string) returns (a: Resp)
      ensures a == Failed || (a.Found? && (a.row.None? ==> sid !in rows.Values))
      ensures a.Found? && a.row.Some? ==> var r := a.row.value; r.sid == sid && r.t in rows && rows[r.t] == sid
    {
      var fails, _ := Weather();
      if fails {
        return Failed;
      }
      if sid !in rows.Values {
        return Found(None);
      }
      var t :| t in rows && rows[t] == sid;
      a := Found(Some(Row(t, sid)));
    }

    method ListRows() returns (a: Resp)
      ensures a == Failed || (a.Rows? && Enumerates(a.rows, RowsOf(rows)))
    {
      var fails, _ := Weather();
      var all := Listing(RowsOf(rows));
      a := if fails then Failed else Rows(all);
    }

    method ListRowsForRepo(key: Key) returns (a: Resp)
      ensures a == Failed || (a.Rows? && Enumerates(a.rows, set r | r in RowsOf(rows) && r.t.key == key))
    {
      var fails, _ := Weather();
      var some := Listing(set r | r in RowsOf(rows) && r.t.key == key);
      a := if fails then Failed else Rows(some);
    }

    /** A unique violation on either key is a conflict. */
    method InsertRow(t: Triple, sid: string) returns (a: Resp, ghost took: bool)
      modifies this`rows
      ensures a == Failed || (took && a == if Taken(old(rows), t, sid) then Conflict else Done)
      ensures rows == if took && !Taken(old(rows), t, sid) then old(rows)[t := sid] else old(rows)
    {
      var fails, effective := Weather();
      var taken := Taken(rows, t, sid);
      if effective && !taken {
        rows := rows[t := sid];
      }
      a, took := if fails then Failed else if taken then Conflict else Done, effective;
    }

    method RenameRow(from: Triple, to: Triple, sid: string) returns (a: Resp, ghost took: bool)
      modifies this`rows
      ensures var taken := Taken(old(rows) - {from}, to, sid);
              && (a == Failed ||
                  (took && a == if from !in old(rows) then NotFound else if taken then Conflict else Done))
              && rows == if took && from in old(rows) && !taken then (old(rows) - {from})[to := sid] else old(rows)
    {
      var fails, effective := Weather();
      var known, taken := from in rows, Taken(rows - {from}, to, sid);
      if effective && known && !taken {
        rows := (rows - {from})[to := sid];
      }
      a, took := if fails then Failed else if !known then NotFound else if taken then Conflict else Done, effective;
    }

    method DeleteRow(t: Triple) returns (a: Resp, ghost took: bool)
      modifies this`rows
      ensures a == Failed || (took && a == Done)
      ensures rows == if took then old(rows) - {t} else old(rows)
    {
      var fails, effective := Weather();
      if effective {
        rows := rows - {t};
      }
      a, took := if fails then Failed else Done, effective;
    }

    method ListManaged() returns (a: Resp)
      ensures a == Failed || (a.Repos? && Enumerates(a.keys, managed))
    {
      var fails, _ := Weather();
      var keys := Listing(managed);
      a := if fails then Failed else Repos(keys);
    }

    method InsertManaged(key: Key) returns (a: Resp, ghost took: bool)
      modifies this`managed
      ensures a == Failed || (took && a == Done)
      ensures managed == if took then old(managed) + {key} else old(managed)
    {
      var fails, effective := Weather();
      if effective {
        managed := managed + {key};
      }
      a, took := if fails then Failed else Done, effective;
    }

    /** The first claim of a worksheet wins; later ones are told so. */
    method ExecutedWorksheet(id: string) returns (a: Resp, ghost took: bool)
      modifies this`claimed
      ensures a == Failed || (took && a == First(id !in old(claimed)))
      ensures claimed == if took then old(claimed) + {id} else old(claimed)
    {
      var fails, effective := Weather();
      var first := id !in claimed;
      if effective {
        claimed := claimed + {id};
      }
      a, took := if fails then Failed else First(first), effective;
    }
  }

  class SessCache {
    var m: map<string, Entry>

    constructor ()
      ensures m == map[]
    {
      m := map[];
    }

    /** An entry is good until the clock is past its expiry. */
    method Get(sid: string, now: nat) returns (t: Option<Triple>)
      ensures t == if sid in m && now <= m[sid].exp then Some(m[sid].t) else None
    {
      if sid !in m || now > m[sid].exp {
        return None;
      }
      t := Some(m[sid].t);
    }

    method Put(sid: string, t: Triple, now: nat)
      modifies this
      ensures m == old(m)[sid := Entry(t, now + TTL)]
    {
      m := m[sid := Entry(t, now + TTL)];
    }

    method Evict(sid: string)
      modifies this
      ensures m == old(m) - {sid}
    {
      m := m - {sid};
    }
  }
}
