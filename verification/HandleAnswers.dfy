/** What the calls on connections and statements answer, and what a client may rely on afterwards. */
module HandleAnswers {
  import opened Prelude
  import opened Handles

  /** Some live statement points to the connection. */
  ghost predicate InUse(s: Shim, db: Handle) {
    exists stmt :: stmt in s.owner && s.owner[stmt] == db
  }

  lemma InUseIsListed(s: Shim, db: Handle)
    requires Sound(s) && db in s.dbs
    ensures InUse(s, db) <==> s.dbs[db].stmts != []
  {
    hide Distinct;
    if s.dbs[db].stmts != [] {
      var first := s.dbs[db].stmts[0];
      assert first in s.dbs[db].stmts;
      assert first in s.owner;
    }
  }

  /** The connection is gone and was shut down, once more than before; nothing else changed. */
  ghost predicate ShutDown(s: Shim, s': Shim, db: Handle) {
    && s'.dbs == s.dbs - {db} && s'.owner == s.owner && s'.opens == s.opens
    && s'.shutdowns == s.shutdowns + multiset{db}
  }

  // ---------- closing ----------

  /** `sqlite3_close` is refused with the code 5 while a statement is live, and then nothing changes;
      without one it answers 0 and ends the connection. */
  lemma PlainClose(s: Shim, db: Handle)
    requires Sound(s) && db in s.dbs
    ensures var (s', answer) := Close(s, db, false);
            if InUse(s, db) then answer == Code(5) && s' == s else answer == Code(0) && ShutDown(s, s', db)
  {
    InUseIsListed(s, db);
    assert db != NULL;
    assert s.dbs[db := s.dbs[db].(closed := true)] - {db} == s.dbs - {db};
    hide Sound, InUse;
  }

  /** `sqlite3_close_v2` always answers 0: with a live statement the connection stays with its list and
      is marked closed, without one it ends. */
  lemma DeferringClose(s: Shim, db: Handle)
    requires Sound(s) && db in s.dbs
    ensures var (s', answer) := Close(s, db, true);
            answer == Code(0)
            && if InUse(s, db) then s' == s.(dbs := s.dbs[db := Db(s.dbs[db].stmts, true)]) else ShutDown(s, s', db)
  {
    InUseIsListed(s, db);
    assert db != NULL;
    assert s.dbs[db := s.dbs[db].(closed := true)] - {db} == s.dbs - {db};
    hide Sound, InUse;
  }

  /** Closing NULL answers 0, closing an unknown pointer is left to the real library; neither changes
      anything. */
  lemma ForeignClose(s: Shim, db: Handle, v2: bool)
    requires Sound(s) && db !in s.dbs
    ensures Close(s, db, v2) == (s, if db == 0 then Code(0) else Forwarded)
  {
  }

  // ---------- opening, preparing, finalising ----------

  /** A connection that is made is live, open and without a statement; otherwise the code is 14. */
  lemma OpenAnswers(s: Shim, raw: Handle, connects: bool)
    requires Sound(s) && FreshAddress(s, raw)
    ensures var (s', answer) := Open(s, raw, connects);
            if connects then
              && answer == Code(0) && raw in s'.dbs && !s'.dbs[raw].closed && !InUse(s', raw)
              && s'.dbs - {raw} == s.dbs && s'.owner == s.owner && s'.shutdowns == s.shutdowns
            else answer == Code(14) && s' == s
  {
  }

  /** A new statement is answered with 0 and its handle, belongs to the connection, and is the last one
      a walk over the connection's statements visits. Any other outcome answers NULL and changes
      nothing: the code is 1 on a closed connection, the broker's on a refusal, and 0 for no SQL. */
  lemma PrepareAnswers(s: Shim, db: Handle, meta: Meta, raw: Handle)
    requires Sound(s) && FreshAddress(s, raw) && db in s.dbs
    ensures var (s', answer) := Prepare(s, db, meta, raw);
            if !s.dbs[db].closed && meta.OneStatement? then
              && answer == Statement(0, raw) && s'.owner == s.owner[raw := db]
              && s'.dbs - {db} == s.dbs - {db} && db in s'.dbs && !s'.dbs[db].closed
              && (var before := s.dbs[db].stmts;
                  Next(s'.dbs[db].stmts, if before == [] then NULL else before[|before| - 1]) == raw)
              && Next(s'.dbs[db].stmts, raw) == NULL
            else
              && s' == s
              && answer == Statement(if s.dbs[db].closed then 1 else if meta.Refused? then meta.code else 0, 0)
  {
    hide Sound, Next;
    if !s.dbs[db].closed && meta.OneStatement? {
      PrepareKeeps(s, db, meta, raw);
      LastInWalk(Prepare(s, db, meta, raw).0, db, s.dbs[db].stmts, raw);
    }
  }

  /** A walk visits the newest statement last. */
  lemma LastInWalk(s: Shim, db: Handle, before: seq<Handle>, raw: Handle)
    requires Sound(s) && db in s.dbs && s.dbs[db].stmts == before + [raw]
    ensures Next(s.dbs[db].stmts, if before == [] then NULL else before[|before| - 1]) == raw
    ensures Next(s.dbs[db].stmts, raw) == NULL
  {
    hide Sound, Next;
    WalkVisitsAll(s, db, |before|);
    WalkVisitsAll(s, db, |before| + 1);
    assert before != [] ==> (before + [raw])[|before| - 1] == before[|before| - 1];
  }

  /** Finalising a live statement answers 0 and removes it. Its connection ends exactly if it was closed
      before and this was its only statement; every other connection and statement stays. */
  lemma FinalizeAnswers(s: Shim, stmt: Handle)
    requires Sound(s) && stmt in s.owner
    ensures var ((s', answer), db) := (Finalize(s, stmt), s.owner[stmt]);
            && answer == Code(0) && s'.owner == s.owner - {stmt} && s'.dbs - {db} == s.dbs - {db}
            && db in s.dbs
            && (db in s'.dbs <==> !s.dbs[db].closed || InUse(s', db))
            && s'.shutdowns == s.shutdowns + (if db in s'.dbs then multiset{} else multiset{db})
            && (db in s'.dbs ==> s'.dbs[db].closed == s.dbs[db].closed)
  {
    var s', db := Finalize(s, stmt).0, s.owner[stmt];
    FinalizeEffect(s, stmt);
    FinalizeKeeps(s, stmt);
    assert stmt != NULL && db in s.dbs;
    if db in s'.dbs {
      InUseIsListed(s', db);
      StillThere(s, s', stmt);
    } else {
      GoneIsUnused(s', db);
    }
    hide Unlinked, Sound, InUse, Distinct;
  }

  lemma StillThere(s: Shim, s': Shim, stmt: Handle)
    requires Sound(s) && Sound(s') && Finalized(s, s', stmt) && s.owner[stmt] in s'.dbs
    ensures !s.dbs[s.owner[stmt]].closed || s'.dbs[s.owner[stmt]].stmts != []
  {
    hide Distinct;
  }

  lemma GoneIsUnused(s: Shim, db: Handle)
    requires Sound(s) && db !in s.dbs
    ensures !InUse(s, db)
  {
  }

  /** Finalising NULL answers 0, and an unknown pointer is left to the real library. */
  lemma ForeignFinalize(s: Shim, stmt: Handle)
    requires Sound(s) && stmt !in s.owner
    ensures Finalize(s, stmt) == (s, if stmt == 0 then Code(0) else Forwarded)
  {
  }

  /** `sqlite3_next_stmt` after a pointer that is no statement of the connection answers NULL. */
  lemma {:induction false} ForeignNext(stmts: seq<Handle>, stmt: Handle)
    requires stmt != 0 && stmt !in stmts
    ensures Next(stmts, stmt) == 0
  {
    if stmts != [] {
      ForeignNext(stmts[1..], stmt);
    }
  }

  // ---------- runs ----------

  ghost predicate NoneClosed(s: Shim) {
    forall db | db in s.dbs :: !s.dbs[db].closed
  }

  lemma DoNeverDefers(s: Shim, c: Call)
    requires Sound(s) && Allocates(s, c) && NoneClosed(s) && (c.CloseCall? ==> !c.v2)
    ensures NoneClosed(Do(s, c))
  {
    match c
    case OpenCall(raw, connects) => OpenAnswers(s, raw, connects);
    case CloseCall(db, _) =>
      if db in s.dbs {
        PlainClose(s, db);
      } else {
        ForeignClose(s, db, false);
      }
    case PrepareCall(db, meta, raw) =>
    case FinalizeCall(stmt) =>
      if stmt in s.owner {
        FinalizeAnswers(s, stmt);
        SamePlaces(s, Finalize(s, stmt).0, s.owner[stmt]);
      } else {
        ForeignFinalize(s, stmt);
      }
  }

  lemma SamePlaces(s: Shim, s': Shim, db: Handle)
    requires NoneClosed(s) && s'.dbs - {db} == s.dbs - {db} && db in s.dbs
    requires db in s'.dbs ==> s'.dbs[db].closed == s.dbs[db].closed
    ensures NoneClosed(s')
  {
    forall d | d in s'.dbs && d != db ensures !s'.dbs[d].closed {
      assert d in s'.dbs - {db};
    }
  }

  lemma {:induction false} CallsNeverDefer(s: Shim, calls: seq<Call>, s': Shim)
    requires Sound(s) && NoneClosed(s) && Leads(s, calls, s')
    requires forall i | 0 <= i < |calls| && calls[i].CloseCall? :: !calls[i].v2
    ensures Sound(s') && NoneClosed(s')
    decreases |calls|
  {
    hide Sound, NoneClosed, Do, Allocates;
    if calls != [] {
      DoKeeps(s, calls[0]);
      DoNeverDefers(s, calls[0]);
      CallsNeverDefer(Do(s, calls[0]), calls[1..], s');
    }
  }

  /** If every close is a plain one, no live connection is ever closed, so no finalise ends one, and a
      statement can be prepared on every connection that is there. */
  lemma PlainClosesNeverDefer(calls: seq<Call>, s: Shim)
    requires Leads(NOTHING, calls, s) && forall i | 0 <= i < |calls| && calls[i].CloseCall? :: !calls[i].v2
    ensures forall db | db in s.dbs :: !s.dbs[db].closed
    ensures forall stmt | stmt in s.owner :: s.owner[stmt] in Finalize(s, stmt).0.dbs
    ensures forall db, raw | db in s.dbs && FreshAddress(s, raw) ::
              Prepare(s, db, OneStatement, raw).1 == Statement(0, raw)
  {
    CallsNeverDefer(NOTHING, calls, s);
    forall stmt | stmt in s.owner ensures s.owner[stmt] in Finalize(s, stmt).0.dbs {
      FinalizeAnswers(s, stmt);
    }
    forall db, raw | db in s.dbs && FreshAddress(s, raw)
      ensures Prepare(s, db, OneStatement, raw).1 == Statement(0, raw)
    {
      PrepareAnswers(s, db, OneStatement, raw);
    }
  }

  /** After an accepted plain close the connection is gone and no statement points to it; after a
      refused one everything is as it was. A deferring close is always accepted, and the connection is
      there afterwards exactly while a statement points to it. */
  lemma ClosesInEveryRun(calls: seq<Call>, s: Shim, db: Handle)
    requires Leads(NOTHING, calls, s) && db in s.dbs
    ensures var (s', answer) := Close(s, db, false);
            && (answer == Code(0) ==> db !in s'.dbs && !InUse(s', db))
            && (answer != Code(0) ==> answer == Code(5) && s' == s && InUse(s, db))
    ensures var (s', answer) := Close(s, db, true);
            answer == Code(0) && (db in s'.dbs <==> InUse(s', db)) && (db in s'.dbs ==> s'.dbs[db].closed)
  {
    assert Sound(NOTHING);
    CallsKeep(NOTHING, calls, s);
    CloseKeeps(s, db, false);
    CloseKeeps(s, db, true);
    PlainClose(s, db);
    DeferringClose(s, db);
    if db !in Close(s, db, false).0.dbs {
      GoneIsUnused(Close(s, db, false).0, db);
    }
    hide Close, Sound, Leads;
  }
}
