/** The connection state the shim caches from each response, and when it is the broker's. */
module Mirror {
  import opened Prelude
  import opened Engine
  import opened Script

  const SQLITE_ABORT := 4

  /** The cached answers of `sqlite3_changes`, `_total_changes`, `_last_insert_rowid`,
      `_get_autocommit` and `_errcode`. */
  datatype Cache = Cache(counters: Counters, autocommit: bool, errcode: int)

  const NEW_CACHE := Cache(ZERO_COUNTERS, true, 0)

  function Apply(r: Response): Cache {
    Cache(r.counters, r.autocommit, if r.fault.None? then 0 else NonZero(CodeOf(r.fault.value)))
  }

  /** The transport either brings a response or fails. */
  datatype Transport = Lost | Got(response: Response)

  /** One call: the cache after it, and the response if the call succeeded. */
  function Rpc(c: Cache, closed: bool, t: Transport): (Cache, Option<Response>) {
    if closed || t.Lost? then (c.(errcode := SQLITE_ERROR), None)
    else (Apply(t.response), if t.response.fault.None? then Some(t.response) else None)
  }

  /** What `sqlite3_exec` does when its row callback asks to stop. */
  function Aborted(r: Response): Cache {
    Cache(r.counters, r.autocommit, SQLITE_ABORT)
  }

  class Connection {
    var changes: int
    var totalChanges: int
    var lastRowid: int
    var autocommit: bool
    var errcode: int
    var closed: bool

    ghost function Cached(): Cache
      reads this
    {
      Cache(Counters(changes, lastRowid, totalChanges), autocommit, errcode)
    }

    constructor ()
      ensures Cached() == NEW_CACHE && !closed
    {
      changes, totalChanges, lastRowid, autocommit, errcode, closed := 0, 0, 0, true, 0, false;
    }

    method ApplyResponse(r: Response)
      modifies this
      ensures Cached() == Apply(r) && closed == old(closed)
      ensures errcode == 0 <==> r.fault.None?
      ensures r.fault.Some? && r.fault.value.Sqlite? && r.fault.value.code != 0 ==> errcode == r.fault.value.code
    {
      changes := r.counters.changes;
      totalChanges := r.counters.total;
      lastRowid := r.counters.rowid;
      autocommit := r.autocommit;
      if r.fault.None? {
        errcode := 0;
      } else {
        var code := CodeOf(r.fault.value);
        errcode := if code == 0 then SQLITE_ERROR else code;
      }
    }

    method Call(t: Transport) returns (r: Option<Response>)
      modifies this
      ensures (Cached(), r) == Rpc(old(Cached()), old(closed), t) && closed == old(closed)
    {
      if closed || t.Lost? {
        errcode := SQLITE_ERROR;
        return None;
      }
      ApplyResponse(t.response);
      r := if t.response.fault.None? then Some(t.response) else None;
    }
  }

  // ---------- when the cache is the truth ----------

  /** Row id, total changes and autocommit are those of the broker's connection. */
  predicate Mirrors<C, L, D>(e: Engine<C, L, D>, c: Cache, conn: Conn<L, D>) {
    && c.counters.rowid == e.counters(conn.local).rowid && c.counters.total == e.counters(conn.local).total
    && c.autocommit == conn.Autocommit()
  }

  /** After every Exec, failed or not, the cache is the truth; so it is after a callback abort. A
      failure reports no changes, and exactly a failure sets an error code. */
  lemma ExecMirrors<C, L, D>(e: Engine<C, L, D>, text: seq<C>, params: seq<Param>, conn: Conn<L, D>, db: D,
                             busy: bool, c: Cache)
    ensures var x := Execute(e, text, params, conn, db, busy);
            var (c', r) := Rpc(c, false, Got(x.response));
            && Mirrors(e, c', x.conn) && Mirrors(e, Aborted(x.response), x.conn)
            && (c'.errcode == 0 <==> r.Some?)
            && c'.counters.changes == (if r.Some? then e.counters(x.conn.local).changes else 0)
            && (r.Some? ==> c'.counters == Aborted(x.response).counters == e.counters(x.conn.local))
  {
    hide RunScript;
  }

  /** A Prepare succeeds exactly if its text has no NUL, nobody else holds a lock and it compiles. */
  predicate Prepares<C, L, D>(e: Engine<C, L, D>, text: seq<C>, conn: Conn<L, D>, db: D, busy: bool) {
    !HasNul(e, text) && !busy && !e.compile(text, conn.local, conn.View(db)).Failed?
  }

  /** After a Prepare the autocommit flag is always the truth. The counters are exactly if the text
      compiles, free of NUL and of other locks, or there was nothing to count; after a success all
      three are, the change count included, and after a failure all three are 0. */
  lemma PrepareMirrors<C, L, D>(e: Engine<C, L, D>, text: seq<C>, conn: Conn<L, D>, db: D, busy: bool, c: Cache)
    ensures var (c', r) := Rpc(c, false, Got(Prepared(e, text, conn, db, busy)));
            && c'.autocommit == conn.Autocommit()
            && (r.Some? <==> Prepares(e, text, conn, db, busy))
            && (Mirrors(e, c', conn) <==>
                Prepares(e, text, conn, db, busy)
                || (e.counters(conn.local).rowid == 0 && e.counters(conn.local).total == 0))
            && c'.counters == (if r.Some? then e.counters(conn.local) else Counters(0, 0, 0))
  {
  }

  /** An engine over one database value whose only text is a syntax error, after one insert. */
  const INSERTED: Engine<char, (), ()> := Engine(
    (), _ => false, _ => false, (_, _, _) => Failed(1), (_, _) => false,
    (_, _, _, _, _) => Ran([], Some(1), (), (), Discard), _ => Counters(1, 7, 1))

  /** A Prepare that fails makes the shim forget the row id and the change count. */
  lemma FailedPrepareForgets()
    ensures var conn: Conn<(), ()> := NewConn(INSERTED);
            var before := Cache(Counters(1, 7, 1), true, 0);
            && Mirrors(INSERTED, before, conn)
            && Rpc(before, false, Got(Prepared(INSERTED, "?", conn, (), false))).0 == Cache(ZERO_COUNTERS, true, 1)
  {
    assert !HasNul(INSERTED, "?");
  }

  /** The answer to a Close leaves the cache of a new connection: no counts, autocommit, code 0. */
  lemma CloseResets(c: Cache)
    ensures Rpc(c, false, Got(CLOSED_RESPONSE)).0 == Cache(Counters(0, 0, 0), true, 0) == NEW_CACHE
  {
  }

  /** A call on a closed or broken connection changes nothing in the cache but the error code. What
      the broker did with a request whose answer was lost, the cache does not know. */
  lemma LostCallKeepsCache<C, L, D>(e: Engine<C, L, D>, c: Cache, closed: bool, t: Transport, conn: Conn<L, D>)
    requires closed || t.Lost?
    ensures var (c', r) := Rpc(c, closed, t);
            && c' == c.(errcode := SQLITE_ERROR) && r.None?
            && (Mirrors(e, c', conn) <==> Mirrors(e, c, conn))
  {
  }
}
