/** The shim as it runs: connection objects on the heap, and the two registries of live handles. */
module ShimProcess {
  import opened Prelude
  import opened Handles

  /** A connection: its statements in the order they were prepared, and whether it was closed. */
  class ProxyDb {
    var stmts: seq<Handle>
    var closed: bool

    constructor ()
      ensures stmts == [] && !closed
    {
      stmts, closed := [], false;
    }

    ghost function Contents(): Db
      reads this
    {
      Db(stmts, closed)
    }

    method LinkStmt(stmt: Handle)
      modifies this`stmts
      ensures stmts == old(stmts) + [stmt]
    {
      stmts := stmts + [stmt];
    }

    method UnlinkStmt(stmt: Handle)
      modifies this`stmts
      ensures stmts == Unlinked(old(stmts), stmt)
    {
      var kept: seq<Handle> := [];
      NoPrefix(Unlinked(stmts, stmt));
      for i := 0 to |stmts|
        invariant stmts == old(stmts)
        invariant kept + Unlinked(stmts[i..], stmt) == Unlinked(stmts, stmt)
      {
        var rest := stmts[i..];
        assert rest[1..] == stmts[i + 1..];
        if rest[0] != stmt {
          Assoc(kept, [rest[0]], Unlinked(rest[1..], stmt));
          kept := kept + [rest[0]];
        } else {
          NoPrefix(Unlinked(rest[1..], stmt));
        }
      }
      NoSuffix(kept);
      stmts := kept;
    }

    /** `sqlite3_next_stmt` on this connection. */
    method NextStmt(stmt: Handle) returns (next: Handle)
      ensures next == Next(stmts, stmt)
    {
      if stmt == NULL {
        return if stmts != [] then stmts[0] else NULL;
      }
      assert stmts[0..] == stmts;
      for i := 0 to |stmts|
        invariant Position(stmts, stmt) == Shifted(Position(stmts[i..], stmt), i)
      {
        assert stmts[i..][1..] == stmts[i + 1..];
        if stmts[i] == stmt {
          return if i + 1 < |stmts| then stmts[i + 1] else NULL;
        }
      }
      next := NULL;
    }
  }

  function Shifted(p: Option<nat>, n: nat): Option<nat> {
    if p.None? then None else Some(p.value + n)
  }

  class Process {
    var dbs: map<Handle, ProxyDb>
    /** Live statements, each with the connection it points to. */
    var owner: map<Handle, Handle>
    ghost var opens: multiset<Handle>
    ghost var shutdowns: multiset<Handle>

    /** Different handles are different connections. */
    ghost predicate Valid()
      reads this
    {
      forall a, b | a in dbs && b in dbs && a != b :: dbs[a] != dbs[b]
    }

    ghost function State(): Shim
      reads this, dbs.Values
    {
      Shim(map h | h in dbs :: dbs[h].Contents(), owner, opens, shutdowns)
    }

    constructor ()
      ensures Valid() && State() == NOTHING
    {
      dbs, owner, opens, shutdowns := map[], map[], multiset{}, multiset{};
    }

    method OpenDb(raw: Handle, connects: bool) returns (r: Answer)
      requires Valid() && FreshAddress(State(), raw)
      modifies this
      ensures Valid() && (State(), r) == Open(old(State()), raw, connects)
    {
      if !connects {
        return Code(SQLITE_CANTOPEN);
      }
      var proxy := new ProxyDb();
      dbs := dbs[raw := proxy];
      opens := opens + multiset{raw};
      assert State().dbs == old(State()).dbs[raw := Db([], false)];
      r := Code(SQLITE_OK);
    }

    method DestroyDb(db: Handle)
      requires Valid()
      modifies this
      ensures Valid() && State() == Destroy(old(State()), db)
    {
      if db !in dbs {
        return;
      }
      dbs := dbs - {db};
      shutdowns := shutdowns + multiset{db};
    }

    method CloseDb(db: Handle, v2: bool) returns (r: Answer)
      requires Valid()
      modifies this, dbs.Values
      ensures Valid() && (State(), r) == Close(old(State()), db, v2)
      ensures db != NULL && db in old(dbs) && old(dbs[db].stmts) != [] ==>
                if v2 then r == Code(0) && db in dbs && dbs[db].stmts == old(dbs[db].stmts) && dbs[db].closed
                else r == Code(5) && State() == old(State())
    {
      if db == NULL {
        return Code(SQLITE_OK);
      }
      if db !in dbs {
        return Forwarded;
      }
      var proxy := dbs[db];
      if !v2 && proxy.stmts != [] {
        return Code(SQLITE_BUSY);
      }
      proxy.closed := true;
      assert State().dbs == old(State()).dbs[db := Db(proxy.stmts, true)];
      if proxy.stmts == [] {
        DestroyDb(db);
      }
      r := Code(SQLITE_OK);
    }

    method PrepareV2(db: Handle, meta: Meta, raw: Handle) returns (r: Answer)
      requires Valid()
      modifies this, dbs.Values
      ensures Valid() && (State(), r) == Prepare(old(State()), db, meta, raw)
    {
      if db !in dbs {
        return Forwarded;
      }
      var proxy := dbs[db];
      if proxy.closed {
        return Statement(SQLITE_ERROR, NULL);
      }
      match meta {
        case Refused(code) => return Statement(code, NULL);
        case NoStatement => return Statement(SQLITE_OK, NULL);
        case OneStatement =>
          owner := owner[raw := db];
          proxy.LinkStmt(raw);
          assert State().dbs == old(State()).dbs[db := Db(proxy.stmts, false)];
          return Statement(SQLITE_OK, raw);
      }
    }

    /** The connection a statement points to is looked up without asking the registry: it is there. */
    method FinalizeStmt(stmt: Handle) returns (r: Answer)
      requires Valid() && Sound(State())
      modifies this, dbs.Values
      ensures Valid() && (State(), r) == Finalize(old(State()), stmt)
    {
      hide Unlinked, Distinct;
      if stmt == NULL {
        return Code(SQLITE_OK);
      }
      if stmt !in owner {
        return Forwarded;
      }
      var db := owner[stmt];
      assert db in State().dbs;
      var proxy := dbs[db];
      owner := owner - {stmt};
      proxy.UnlinkStmt(stmt);
      assert State().dbs == old(State()).dbs[db := proxy.Contents()];
      if proxy.closed && proxy.stmts == [] {
        DestroyDb(db);
      }
      r := Code(SQLITE_OK);
    }
  }
}
