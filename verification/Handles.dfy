/** The shim's registries: live connections, live statements, and destruction put off until the
    last statement is finalised. */
module Handles {
  import opened Prelude

  /** A C pointer. */
  type Handle = nat

  const NULL: Handle := 0

  const SQLITE_OK := 0
  const SQLITE_ERROR := 1
  const SQLITE_BUSY := 5
  const SQLITE_CANTOPEN := 14

  /** What a C call answers. A handle the shim does not know is passed on to the real library.
      `Dangling` stands for following a pointer to a connection that is gone. */
  datatype Answer = Code(code: int) | Statement(code: int, stmt: Handle) | Forwarded | Dangling

  /** What the broker said to the Prepare behind `sqlite3_prepare_v2`; the code is not zero. */
  datatype Meta = Refused(code: int) | NoStatement | OneStatement

  // ---------- the registries as a value ----------

  datatype Db = Db(stmts: seq<Handle>, closed: bool)

  /** `opens` and `shutdowns` count, per address, the connections made and the Close messages sent. */
  datatype Shim = Shim(dbs: map<Handle, Db>, owner: map<Handle, Handle>, opens: multiset<Handle>,
                       shutdowns: multiset<Handle>)

  const NOTHING := Shim(map[], map[], multiset{}, multiset{})

  /** A new allocation has an address of its own. Addresses of freed objects may come back. */
  predicate FreshAddress(s: Shim, raw: Handle) {
    raw != NULL && raw !in s.dbs && raw !in s.owner
  }

  function Open(s: Shim, raw: Handle, connects: bool): (Shim, Answer) {
    if connects then (s.(dbs := s.dbs[raw := Db([], false)], opens := s.opens + multiset{raw}), Code(SQLITE_OK))
    else (s, Code(SQLITE_CANTOPEN))
  }

  function Destroy(s: Shim, db: Handle): Shim {
    if db in s.dbs then s.(dbs := s.dbs - {db}, shutdowns := s.shutdowns + multiset{db}) else s
  }

  function Close(s: Shim, db: Handle, v2: bool): (Shim, Answer) {
    if db == NULL then (s, Code(SQLITE_OK))
    else if db !in s.dbs then (s, Forwarded)
    else if !v2 && s.dbs[db].stmts != [] then (s, Code(SQLITE_BUSY))
    else
      var s' := s.(dbs := s.dbs[db := s.dbs[db].(closed := true)]);
      (if s.dbs[db].stmts == [] then Destroy(s', db) else s', Code(SQLITE_OK))
  }

  function Prepare(s: Shim, db: Handle, meta: Meta, raw: Handle): (Shim, Answer) {
    if db !in s.dbs then (s, Forwarded)
    else if s.dbs[db].closed then (s, Statement(SQLITE_ERROR, NULL))
    else
      match meta
      case Refused(code) => (s, Statement(code, NULL))
      case NoStatement => (s, Statement(SQLITE_OK, NULL))
      case OneStatement =>
        (s.(dbs := s.dbs[db := s.dbs[db].(stmts := s.dbs[db].stmts + [raw])], owner := s.owner[raw := db]),
         Statement(SQLITE_OK, raw))
  }

  function Unlinked(stmts: seq<Handle>, stmt: Handle): seq<Handle> {
    if stmts == [] then []
    else (if stmts[0] == stmt then [] else [stmts[0]]) + Unlinked(stmts[1..], stmt)
  }

  function Finalize(s: Shim, stmt: Handle): (Shim, Answer) {
    if stmt == NULL then (s, Code(SQLITE_OK))
    else if stmt !in s.owner then (s, Forwarded)
    else if s.owner[stmt] !in s.dbs then (s, Dangling)
    else
      var db := s.owner[stmt];
      var rest := Unlinked(s.dbs[db].stmts, stmt);
      var s' := s.(dbs := s.dbs[db := s.dbs[db].(stmts := rest)], owner := s.owner - {stmt});
      (if s.dbs[db].closed && rest == [] then Destroy(s', db) else s', Code(SQLITE_OK))
  }

  // ---------- what holds after every call ----------

  ghost predicate Distinct(stmts: seq<Handle>) {
    forall i, j | 0 <= i < j < |stmts| :: stmts[i] != stmts[j]
  }

  /** Every listed statement is live and belongs to the connection that lists it. */
  ghost predicate ListsFit(s: Shim) {
    forall db, stmt | db in s.dbs && stmt in s.dbs[db].stmts :: stmt in s.owner && s.owner[stmt] == db
  }

  /** Every live statement is listed by a live connection. */
  ghost predicate OwnersFit(s: Shim) {
    forall stmt | stmt in s.owner :: s.owner[stmt] in s.dbs && stmt in s.dbs[s.owner[stmt]].stmts
  }

  /** A statement is listed once, and a closed connection that is still there lists one. */
  ghost predicate DbsFit(s: Shim) {
    forall db | db in s.dbs :: Distinct(s.dbs[db].stmts) && (s.dbs[db].closed ==> s.dbs[db].stmts != [])
  }

  /** Every connection ever made is either live or was shut down exactly once. */
  ghost predicate CountsFit(s: Shim) {
    forall h: Handle :: s.opens[h] == s.shutdowns[h] + if h in s.dbs then 1 else 0
  }

  ghost predicate Sound(s: Shim) {
    && ListsFit(s) && OwnersFit(s) && DbsFit(s) && CountsFit(s)
    && NULL !in s.dbs && NULL !in s.owner && s.dbs.Keys !! s.owner.Keys
  }

  lemma {:induction false} UnlinkedKeeps(stmts: seq<Handle>, stmt: Handle)
    requires Distinct(stmts)
    ensures Distinct(Unlinked(stmts, stmt))
    ensures forall h :: h in Unlinked(stmts, stmt) <==> h in stmts && h != stmt
    ensures stmt in stmts ==> |Unlinked(stmts, stmt)| == |stmts| - 1
    ensures stmt !in stmts ==> Unlinked(stmts, stmt) == stmts
  {
    if stmts != [] {
      var rest := stmts[1..];
      UnlinkedKeeps(rest, stmt);
      assert stmts == [stmts[0]] + rest;
      assert stmts[0] !in rest;
    }
  }

  lemma OpenKeeps(s: Shim, raw: Handle, connects: bool)
    requires Sound(s) && FreshAddress(s, raw)
    ensures Sound(Open(s, raw, connects).0)
  {
  }

  lemma CloseKeeps(s: Shim, db: Handle, v2: bool)
    requires Sound(s)
    ensures Sound(Close(s, db, v2).0)
  {
    hide Distinct;
  }

  lemma PrepareKeeps(s: Shim, db: Handle, meta: Meta, raw: Handle)
    requires Sound(s) && FreshAddress(s, raw)
    ensures Sound(Prepare(s, db, meta, raw).0)
  {
    if db in s.dbs {
      hide Distinct, ListsFit, OwnersFit, CountsFit;
      assert raw !in s.dbs[db].stmts by { FreshIsUnlisted(s, db, raw); }
      DistinctAppend(s.dbs[db].stmts, raw);
      if !s.dbs[db].closed && meta.OneStatement? {
        LinkFits(s, db, raw);
      }
    }
  }

  lemma FreshIsUnlisted(s: Shim, db: Handle, raw: Handle)
    requires ListsFit(s) && FreshAddress(s, raw) && db in s.dbs
    ensures raw !in s.dbs[db].stmts
  {
  }

  /** A new statement is listed by its connection and points to it. */
  lemma LinkFits(s: Shim, db: Handle, raw: Handle)
    requires ListsFit(s) && OwnersFit(s) && CountsFit(s) && FreshAddress(s, raw) && db in s.dbs && !s.dbs[db].closed
    ensures var s' := Prepare(s, db, OneStatement, raw).0; ListsFit(s') && OwnersFit(s') && CountsFit(s')
  {
    FreshIsUnlisted(s, db, raw);
  }

  lemma DistinctAppend(stmts: seq<Handle>, raw: Handle)
    requires Distinct(stmts) && raw !in stmts
    ensures Distinct(stmts + [raw])
  {
  }

  /** What finalising a live statement changes, and that it changes nothing else. */
  ghost predicate Finalized(s: Shim, s': Shim, stmt: Handle) {
    && stmt in s.owner && s.owner[stmt] in s.dbs
    && var db := s.owner[stmt];
    && s'.owner == s.owner - {stmt} && s'.opens == s.opens
    && (forall d | d != db :: (d in s'.dbs <==> d in s.dbs) && (d in s.dbs ==> s'.dbs[d] == s.dbs[d]))
    && (if s.dbs[db].closed && |s.dbs[db].stmts| == 1 then db !in s'.dbs && s'.shutdowns == s.shutdowns + multiset{db}
        else db in s'.dbs && s'.shutdowns == s.shutdowns
             && s'.dbs[db].closed == s.dbs[db].closed && |s'.dbs[db].stmts| == |s.dbs[db].stmts| - 1
             && Distinct(s'.dbs[db].stmts) && forall h :: h in s'.dbs[db].stmts <==> h in s.dbs[db].stmts && h != stmt)
  }

  lemma FinalizeEffect(s: Shim, stmt: Handle)
    requires Sound(s) && stmt in s.owner
    ensures Finalized(s, Finalize(s, stmt).0, stmt)
  {
    UnlinkedKeeps(s.dbs[s.owner[stmt]].stmts, stmt);
    hide Unlinked, Distinct;
  }

  lemma OnlyOne(stmts: seq<Handle>, a: Handle, b: Handle)
    requires |stmts| == 1 && a in stmts && b in stmts
    ensures a == b
  {
  }

  lemma OwnersStayFit(s: Shim, s': Shim, stmt: Handle)
    requires OwnersFit(s) && Finalized(s, s', stmt)
    ensures OwnersFit(s')
  {
    hide Distinct;
    var db := s.owner[stmt];
    forall h | h in s'.owner ensures s'.owner[h] in s'.dbs && h in s'.dbs[s'.owner[h]].stmts {
      assert h in s.owner && h in s.dbs[s.owner[h]].stmts;
      if s.owner[h] == db && |s.dbs[db].stmts| == 1 {
        OnlyOne(s.dbs[db].stmts, h, stmt);
      }
    }
  }

  lemma ListsStayFit(s: Shim, s': Shim, stmt: Handle)
    requires ListsFit(s) && Finalized(s, s', stmt)
    ensures ListsFit(s')
  {
    hide Distinct;
  }

  lemma CountsStayFit(s: Shim, s': Shim, stmt: Handle)
    requires CountsFit(s) && Finalized(s, s', stmt)
    ensures CountsFit(s')
  {
    hide Distinct;
  }

  lemma FinalizeKeeps(s: Shim, stmt: Handle)
    requires Sound(s)
    ensures Sound(Finalize(s, stmt).0)
  {
    if stmt in s.owner {
      var s' := Finalize(s, stmt).0;
      FinalizeEffect(s, stmt);
      OwnersStayFit(s, s', stmt);
      ListsStayFit(s, s', stmt);
      CountsStayFit(s, s', stmt);
      hide Unlinked, Finalize, Distinct, OwnersFit, ListsFit, CountsFit;
    }
  }

  // ---------- every sequence of calls ----------

  datatype Call =
    | OpenCall(raw: Handle, connects: bool)
    | CloseCall(db: Handle, v2: bool)
    | PrepareCall(db: Handle, meta: Meta, raw: Handle)
    | FinalizeCall(stmt: Handle)

  predicate Allocates(s: Shim, c: Call) {
    match c
    case OpenCall(raw, _) => FreshAddress(s, raw)
    case PrepareCall(_, _, raw) => FreshAddress(s, raw)
    case _ => true
  }

  function Do(s: Shim, c: Call): Shim {
    match c
    case OpenCall(raw, connects) => Open(s, raw, connects).0
    case CloseCall(db, v2) => Close(s, db, v2).0
    case PrepareCall(db, meta, raw) => Prepare(s, db, meta, raw).0
    case FinalizeCall(stmt) => Finalize(s, stmt).0
  }

  lemma DoKeeps(s: Shim, c: Call)
    requires Sound(s) && Allocates(s, c)
    ensures Sound(Do(s, c))
  {
    match c
    case OpenCall(raw, connects) => OpenKeeps(s, raw, connects);
    case CloseCall(db, v2) => CloseKeeps(s, db, v2);
    case PrepareCall(db, meta, raw) => PrepareKeeps(s, db, meta, raw);
    case FinalizeCall(stmt) => FinalizeKeeps(s, stmt);
  }

  /** The states a list of calls goes through, the allocator handing out addresses not in use. */
  ghost predicate Leads(s: Shim, calls: seq<Call>, s': Shim)
    decreases |calls|
  {
    if calls == [] then s' == s
    else Allocates(s, calls[0]) && Leads(Do(s, calls[0]), calls[1..], s')
  }

  lemma {:induction false} CallsKeep(s: Shim, calls: seq<Call>, s': Shim)
    requires Sound(s) && Leads(s, calls, s')
    ensures Sound(s')
    decreases |calls|
  {
    hide Sound, Do, Allocates;
    if calls != [] {
      DoKeeps(s, calls[0]);
      CallsKeep(Do(s, calls[0]), calls[1..], s');
    }
  }

  /** Over every sequence of calls from an empty process: no statement outlives its connection, so no
      finalise ever follows a dangling pointer; a closed connection is kept only for its statements;
      and every connection is shut down at most once, exactly when it stops being live. */
  lemma LifecycleIsSafe(calls: seq<Call>, s: Shim)
    requires Leads(NOTHING, calls, s)
    ensures forall stmt | stmt in s.owner :: s.owner[stmt] in s.dbs
    ensures forall stmt: Handle :: Finalize(s, stmt).1 != Dangling
    ensures forall db, stmt | db in s.dbs && stmt in s.owner :: stmt in s.dbs[db].stmts <==> s.owner[stmt] == db
    ensures forall db | db in s.dbs :: Distinct(s.dbs[db].stmts) && forall stmt | stmt in s.dbs[db].stmts ::
            stmt in s.owner
    ensures forall db | db in s.dbs && s.dbs[db].closed :: exists stmt :: stmt in s.owner && s.owner[stmt] == db
    ensures forall h: Handle :: s.opens[h] == s.shutdowns[h] + if h in s.dbs then 1 else 0
  {
    assert Sound(NOTHING);
    CallsKeep(NOTHING, calls, s);
    SoundMeans(s);
  }

  lemma SoundMeans(s: Shim)
    requires Sound(s)
    ensures forall stmt | stmt in s.owner :: s.owner[stmt] in s.dbs
    ensures forall db, stmt | db in s.dbs && stmt in s.owner :: stmt in s.dbs[db].stmts <==> s.owner[stmt] == db
    ensures forall db | db in s.dbs :: Distinct(s.dbs[db].stmts) && forall stmt | stmt in s.dbs[db].stmts ::
            stmt in s.owner
    ensures forall db | db in s.dbs && s.dbs[db].closed :: exists stmt :: stmt in s.owner && s.owner[stmt] == db
    ensures forall h: Handle :: s.opens[h] == s.shutdowns[h] + if h in s.dbs then 1 else 0
  {
    hide Distinct;
    forall db | db in s.dbs && s.dbs[db].closed ensures exists stmt :: stmt in s.owner && s.owner[stmt] == db {
      assert s.dbs[db].stmts[0] in s.dbs[db].stmts;
      assert s.dbs[db].stmts[0] in s.owner;
    }
  }

  // ---------- walking and draining the statements ----------

  function Position(stmts: seq<Handle>, stmt: Handle): Option<nat> {
    if stmts == [] then None
    else if stmts[0] == stmt then Some(0)
    else var p := Position(stmts[1..], stmt); if p.None? then None else Some(p.value + 1)
  }

  /** `sqlite3_next_stmt` on a list of statements. */
  function Next(stmts: seq<Handle>, stmt: Handle): Handle {
    var i := if stmt == NULL then Some(0) else var p := Position(stmts, stmt); if p.None? then None
        else Some(p.value + 1);
    if i.Some? && i.value < |stmts| then stmts[i.value] else NULL
  }

  lemma {:induction false} PositionOf(stmts: seq<Handle>, i: nat)
    requires Distinct(stmts) && i < |stmts|
    ensures Position(stmts, stmts[i]) == Some(i)
  {
    if i > 0 {
      PositionOf(stmts[1..], i - 1);
    }
  }

  /** Starting from NULL and going on from each answer visits every statement of the connection
      once, oldest first, and then answers NULL. */
  lemma WalkVisitsAll(s: Shim, db: Handle, i: nat)
    requires Sound(s) && db in s.dbs && i <= |s.dbs[db].stmts|
    ensures var stmts := s.dbs[db].stmts;
            Next(stmts, if i == 0 then NULL else stmts[i - 1]) == if i < |stmts| then stmts[i] else NULL
  {
    var stmts := s.dbs[db].stmts;
    if i > 0 {
      PositionOf(stmts, i - 1);
      assert stmts[i - 1] in s.owner;
    }
  }

  /** The shim after the client finalised `next_stmt(db, NULL)` `n` times. */
  function Drain(s: Shim, db: Handle, n: nat): Shim
    decreases n
  {
    if n == 0 || db !in s.dbs then s
    else Drain(Finalize(s, Next(s.dbs[db].stmts, NULL)).0, db, n - 1)
  }

  /** As many rounds as there are statements empty the list. An open connection is then still there
      with no statement; a closed one is gone, shut down by the last round. */
  lemma {:induction false} DrainEmpties(s: Shim, db: Handle)
    requires Sound(s) && db in s.dbs
    ensures var s' := Drain(s, db, |s.dbs[db].stmts|);
            && Sound(s') && Drained(s, s', db)
    decreases |s.dbs[db].stmts|
  {
    hide Finalize, Sound, Distinct, Drained, Drain, Finalized;
    if s.dbs[db].stmts != [] {
      var first := s.dbs[db].stmts[0];
      var s1 := Finalize(s, first).0;
      DrainRound(s, db, |s.dbs[db].stmts|);
      if db in s1.dbs {
        OneFewer(s, s1, db, first);
        DrainEmpties(s1, db);
        DrainedOneMore(s, s1, Drain(s, db, |s.dbs[db].stmts|), db, first);
      } else {
        DrainGone(s1, db, |s.dbs[db].stmts| - 1);
        LastOne(s, s1, db, first);
      }
    } else {
      NothingToDrain(s, db);
    }
  }

  lemma NothingToDrain(s: Shim, db: Handle)
    requires Sound(s) && db in s.dbs && s.dbs[db].stmts == []
    ensures Drain(s, db, 0) == s && Drained(s, s, db)
  {
    NoneOwned(s, db);
  }

  lemma OneFewer(s: Shim, s1: Shim, db: Handle, first: Handle)
    requires Finalized(s, s1, first) && s.owner[first] == db && db in s1.dbs
    ensures |s1.dbs[db].stmts| == |s.dbs[db].stmts| - 1
  {
    hide Distinct;
  }

  lemma DrainRound(s: Shim, db: Handle, n: nat)
    requires Sound(s) && db in s.dbs && s.dbs[db].stmts != [] && n > 0
    ensures var first := s.dbs[db].stmts[0];
            && first in s.owner && s.owner[first] == db
            && var s1 := Finalize(s, first).0;
            Sound(s1) && Finalized(s, s1, first) && Drain(s, db, n) == Drain(s1, db, n - 1)
  {
    var first := s.dbs[db].stmts[0];
    assert first in s.dbs[db].stmts;
    FinalizeKeeps(s, first);
    FinalizeEffect(s, first);
    hide Finalize, Sound, Finalized;
  }

  lemma DrainGone(s: Shim, db: Handle, n: nat)
    requires Sound(s) && db !in s.dbs
    ensures Drain(s, db, n) == s
  {
  }

  /** All statements of `db` are gone, and the connection too if it was closed; nothing else changed. */
  ghost predicate Drained(s: Shim, s': Shim, db: Handle)
    requires db in s.dbs
  {
    && (if s.dbs[db].closed then db !in s'.dbs && s'.shutdowns == s.shutdowns + multiset{db}
        else db in s'.dbs && s'.dbs[db] == Db([], false) && s'.shutdowns == s.shutdowns)
    && s'.opens == s.opens
    && (forall d | d != db :: (d in s'.dbs <==> d in s.dbs) && (d in s.dbs ==> s'.dbs[d] == s.dbs[d]))
    && (forall stmt :: stmt in s'.owner <==> stmt in s.owner && s.owner[stmt] != db)
  }

  lemma DrainedOneMore(s: Shim, s1: Shim, s': Shim, db: Handle, first: Handle)
    requires db in s.dbs && Finalized(s, s1, first) && s.owner[first] == db && db in s1.dbs && Drained(s1, s', db)
    ensures Drained(s, s', db)
  {
    hide Distinct;
  }

  /** The last statement of a closed connection takes the connection with it. */
  lemma LastOne(s: Shim, s1: Shim, db: Handle, first: Handle)
    requires Sound(s) && db in s.dbs && Finalized(s, s1, first) && s.owner[first] == db && db !in s1.dbs
    ensures Drained(s, s1, db)
  {
    hide Distinct;
    forall stmt | stmt in s.owner && s.owner[stmt] == db ensures stmt == first {
      OnlyOne(s.dbs[db].stmts, stmt, first);
    }
  }

  lemma NoneOwned(s: Shim, db: Handle)
    requires Sound(s) && db in s.dbs && s.dbs[db].stmts == []
    ensures forall stmt | stmt in s.owner :: s.owner[stmt] != db
  {
  }
}
