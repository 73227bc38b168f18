/** The statements of a migration, what SQLite promises of them, and what each call of `migrate`
    does to a connection and to the file. */
module Migration {
  import opened Prelude
  import opened Engine
  import opened Script

  // ---------- versions and their DDL ----------

  /** What happens if a part of a version's DDL is already in effect: it fails with an error the
      driver ignores, it does nothing, or it takes effect once more. */
  datatype Kind = Strict | Lenient | Repeated

  /** The versions to apply are 1, 2, ...; `plan[v - 1]` lists the parts of version `v`'s script. */
  type Plan = seq<seq<Kind>>

  /** Four times IF NOT EXISTS, one ADD COLUMN, one IF NOT EXISTS. */
  const DRIVER_PLAN: Plan := [[Lenient, Lenient, Lenient, Lenient], [Strict], [Lenient]]

  function Parts(plan: Plan, v: nat): nat {
    if 1 <= v <= |plan| then |plan[v - 1]| else 0
  }

  function KindOf(plan: Plan, v: nat, part: nat): Kind {
    if part < Parts(plan, v) then plan[v - 1][part] else Repeated
  }

  /** The file: the versions in the ledger table, and how often each DDL part has taken effect. */
  datatype Schema = Schema(ledger: bool, marks: set<nat>, applied: multiset<(nat, nat)>)

  function Bump(kind: Kind, n: nat): nat {
    if kind.Lenient? && n > 0 then n else n + 1
  }

  /** A part that fails here because it is in effect. */
  predicate Blocked(plan: Plan, d: Schema, v: nat, part: nat) {
    KindOf(plan, v, part).Strict? && d.applied[(v, part)] > 0
  }

  function Altered(plan: Plan, d: Schema, v: nat, part: nat): Schema {
    d.(applied := d.applied[(v, part) := Bump(KindOf(plan, v, part), d.applied[(v, part)])])
  }

  /** The part at which the script of a version stops, if it runs on `d`: the first blocked one. */
  function StopFrom(plan: Plan, d: Schema, v: nat, part: nat): nat
    decreases Parts(plan, v) - part
  {
    if part >= Parts(plan, v) then Parts(plan, v)
    else if Blocked(plan, d, v, part) then part
    else StopFrom(plan, d, v, part + 1)
  }

  function Stop(plan: Plan, d: Schema, v: nat): nat {
    StopFrom(plan, d, v, 0)
  }

  lemma {:induction false} StopFromIs(plan: Plan, d: Schema, v: nat, part: nat)
    requires part <= Parts(plan, v)
    ensures part <= StopFrom(plan, d, v, part) <= Parts(plan, v)
    ensures forall i: nat | part <= i < StopFrom(plan, d, v, part) :: !Blocked(plan, d, v, i)
    ensures StopFrom(plan, d, v, part) < Parts(plan, v) ==> Blocked(plan, d, v, StopFrom(plan, d, v, part))
    decreases Parts(plan, v) - part
  {
    hide Blocked;
    if part < Parts(plan, v) && !Blocked(plan, d, v, part) {
      StopFromIs(plan, d, v, part + 1);
    }
  }

  /** The script of a version has run up to a part. */
  function DoneParts(plan: Plan, d: Schema, v: nat, n: nat): Schema {
    if n == 0 then d else Altered(plan, DoneParts(plan, d, v, n - 1), v, n - 1)
  }

  lemma {:induction false} DonePartsAre(plan: Plan, d: Schema, v: nat, n: nat)
    ensures var d' := DoneParts(plan, d, v, n);
            && d'.ledger == d.ledger && d'.marks == d.marks
            && forall k: nat, i: nat :: d'.applied[(k, i)] ==
                 if k == v && i < n then Bump(KindOf(plan, v, i), d.applied[(k, i)]) else d.applied[(k, i)]
  {
    hide KindOf, Bump;
    if n > 0 {
      DonePartsAre(plan, d, v, n - 1);
    }
  }

  // ---------- the statements, and what the engine promises of them ----------

  /** The SQL text of the driver, one letter per statement. */
  datatype Sql = CreateLedger | Begin | Commit | Rollback | CountVersion(v: nat) | Ddl(v: nat, part: nat) | Mark(v: nat)

  function Changed(plan: Plan, d: Schema, stmt: Sql): Schema {
    match stmt
    case CreateLedger => d.(ledger := true)
    case Ddl(v, part) => Altered(plan, d, v, part)
    case Mark(v) => d.(marks := d.marks + {v})
    case _ => d
  }

  predicate StaysAsItWas(inTx: bool, end: TxEnd) {
    inTx <==> end.KeepOpen?
  }

  /** An error the driver ignores means that the DDL part is in effect already. */
  predicate HonestFailure(plan: Plan, stmt: Sql, view: Schema, code: int, benign: Fault -> bool) {
    stmt.Ddl? && benign(Sqlite(NonZero(code))) ==> Blocked(plan, view, stmt.v, stmt.part)
  }

  /** One statement's result is one SQLite could give. A failing statement publishes nothing; unless
      its error is one the driver ignores, it may do anything else, even end the transaction. */
  predicate Lawful<L>(plan: Plan, stmt: Sql, view: Schema, inTx: bool, ran: Ran<L, Schema>, benign: Fault -> bool) {
    if ran.error.Some? then
      && ran.end != Publish && (!inTx ==> ran.end == Discard)
      && HonestFailure(plan, stmt, view, ran.error.value, benign)
      && (inTx && stmt.Ddl? && benign(Sqlite(NonZero(ran.error.value))) ==> ran.end == KeepOpen && ran.view == view)
    else
      match stmt
      case Begin => !inTx && ran.end == KeepOpen && ran.view == view
      case Commit => inTx && ran.end == Publish && ran.view == view
      case Rollback => inTx && ran.end == Discard
      case _ =>
        && StaysAsItWas(inTx, ran.end) && ran.view == Changed(plan, view, stmt)
        && (stmt.Ddl? ==> !Blocked(plan, view, stmt.v, stmt.part))
        && (stmt.CountVersion? ==> ran.rows == [[Int(if stmt.v in view.marks then 1 else 0)]])
  }

  /** Compiling a text finds its first letter, or fails, for instance on a column that exists. */
  predicate LawfulCompile(plan: Plan, stmt: Sql, view: Schema, compiled: Compiled, benign: Fault -> bool) {
    match compiled
    case Statement(tail, _) => tail == Some(1)
    case Failed(code) => HonestFailure(plan, stmt, view, code, benign)
    case Nothing(_) => false
  }

  ghost predicate MigrationEngine<L(!new)>(e: Engine<Sql, L, Schema>, plan: Plan, benign: Fault -> bool) {
    && (forall f: Fault :: benign(f) ==> f.Sqlite?)
    && (forall text: seq<Sql>, local: L, view: Schema {:trigger e.compile(text, local, view)} ::
          if text == [] then e.compile(text, local, view).Nothing?
          else LawfulCompile(plan, text[0], view, e.compile(text, local, view), benign))
    && (forall text: seq<Sql>, binds: seq<Bind>, local: L, view: Schema, inTx: bool
          {:trigger e.run(text, binds, local, view, inTx)} ::
          text != [] ==> Lawful(plan, text[0], view, inTx, e.run(text, binds, local, view, inTx), benign))
  }

  // ---------- one statement ----------

  /** A statement that succeeded. */
  predicate Did<L>(plan: Plan, stmt: Sql, conn: Conn<L, Schema>, db: Schema, conn': Conn<L, Schema>, db': Schema) {
    match stmt
    case Begin => conn.tx.None? && conn'.tx == Some(db) && db' == db
    case Commit => conn.tx.Some? && conn'.tx.None? && db' == conn.tx.value
    case Rollback => conn.tx.Some? && conn'.tx.None? && db' == db
    case _ =>
      && (stmt.Ddl? ==> !Blocked(plan, conn.View(db), stmt.v, stmt.part))
      && (if conn.tx.Some? then conn'.tx == Some(Changed(plan, conn.tx.value, stmt)) && db' == db
          else conn'.tx.None? && (db' == db || db' == Changed(plan, db, stmt)))
  }

  /** A statement that failed: the file is as it was, and so is a transaction whose DDL part failed
      because it is in effect. */
  predicate DidNot<L>(plan: Plan, stmt: Sql, conn: Conn<L, Schema>, db: Schema, conn': Conn<L, Schema>, db': Schema,
                       ignored: bool)
  {
    && db' == db && (conn.tx.None? ==> conn'.tx.None?)
    && (stmt.Ddl? && ignored ==>
          Blocked(plan, conn.View(db), stmt.v, stmt.part) && (conn.tx.Some? ==> conn'.tx == conn.tx))
  }

  lemma TurnDoes<L(!new)>(e: Engine<Sql, L, Schema>, plan: Plan, benign: Fault -> bool, text: seq<Sql>,
                          conn: Conn<L, Schema>, db: Schema, busy: bool, table: Table)
    requires MigrationEngine(e, plan, benign) && text != []
    ensures var t := OneTurn(e, text, [], conn, db, busy, table);
            if t.result.Some? && t.result.value.Err? then
              DidNot(plan, text[0], conn, db, t.conn, t.db, benign(t.result.value.error))
            else
              && Did(plan, text[0], conn, db, t.conn, t.db)
              && (if |text| == 1 then t.result == Some(Ok(t.table)) else t.result.None? && t.next == 1)
              && (text[0].CountVersion? ==>
                  t.table.rows == table.rows + [[IntCell(if text[0].v in conn.View(db).marks then 1 else 0)]])
  {
    hide Changed, Blocked, HasSql;
    var step := StepOf(e, text, [], conn, db);
    assert Lawful(plan, text[0], conn.View(db), conn.tx.Some?, step.ran, benign);
    assert LawfulCompile(plan, text[0], conn.View(db), e.compile(text, conn.local, conn.View(db)), benign);
    if text[0].CountVersion? && step.ran.error.None? {
      OneCount(step.ran.rows, if text[0].v in conn.View(db).marks then 1 else 0);
    }
    hide RowsOf;
  }

  lemma OneCount(rows: seq<seq<Value>>, n: int)
    requires rows == [[Int(n)]]
    ensures RowsOf(rows) == [[IntCell(n)]]
  {
    var row: seq<Value> := [Int(n)];
    assert RowOf(row) == [IntCell(n)];
    assert RowsOf(rows)[0] == RowOf(row);
  }

  /** A call with a single statement. */
  lemma CallDoes<L(!new)>(e: Engine<Sql, L, Schema>, plan: Plan, benign: Fault -> bool, stmt: Sql,
                          conn: Conn<L, Schema>, db: Schema, busy: bool)
    requires MigrationEngine(e, plan, benign)
    ensures var x := Execute(e, [stmt], [], conn, db, busy);
            if x.response.fault.Some? then DidNot(plan, stmt, conn, db, x.conn, x.db, benign(x.response.fault.value))
            else
              && Did(plan, stmt, conn, db, x.conn, x.db)
              && (stmt.CountVersion? ==> x.response.rows == [[IntCell(if stmt.v in conn.View(db).marks then 1 else 0)]])
  {
    if HasNul(e, [stmt]) {
      assert !benign(EmbeddedNul);
    } else {
      TurnDoes(e, plan, benign, [stmt], conn, db, busy, Table([], []));
      hide OneTurn, Did, DidNot, MigrationEngine;
      NoPrefix([[IntCell(if stmt.CountVersion? && stmt.v in conn.View(db).marks then 1 else 0)]]);
    }
  }

  // ---------- the script of a version ----------

  function DdlFrom(plan: Plan, v: nat, part: nat): seq<Sql>
    decreases Parts(plan, v) - part
  {
    if part >= Parts(plan, v) then [] else [Ddl(v, part)] + DdlFrom(plan, v, part + 1)
  }

  lemma StopIs(plan: Plan, d: Schema, v: nat, n: nat)
    requires n <= Parts(plan, v) && forall i: nat | i < n :: !Blocked(plan, d, v, i)
    requires n == Parts(plan, v) || Blocked(plan, d, v, n)
    ensures Stop(plan, d, v) == n
  {
    hide Blocked;
    StopFromIs(plan, d, v, 0);
  }

  /** Inside a transaction on `base`, the script either runs up to where it stops, succeeding or
      failing with an error the driver ignores, or fails otherwise. */
  lemma {:induction false} ScriptDoes<L(!new)>(
    e: Engine<Sql, L, Schema>, plan: Plan, benign: Fault -> bool, v: nat, part: nat,
    conn: Conn<L, Schema>, db: Schema, busy: bool, table: Table, base: Schema)
    requires MigrationEngine(e, plan, benign) && part < Parts(plan, v)
    requires conn.tx == Some(DoneParts(plan, base, v, part)) && forall i: nat | i < part :: !Blocked(plan, base, v, i)
    ensures var o := Loop(e, DdlFrom(plan, v, part), [], conn, db, busy, table);
            && o.db == db
            && (o.result.Ok? || benign(o.result.error) ==>
                  o.conn.tx == Some(DoneParts(plan, base, v, Stop(plan, base, v))))
    decreases Parts(plan, v) - part
  {
    var text := DdlFrom(plan, v, part);
    var t := OneTurn(e, text, [], conn, db, busy, table);
    TurnDoes(e, plan, benign, text, conn, db, busy, table);
    BlockedLater(plan, base, v, part);
    DdlRest(plan, v, part);
    hide OneTurn, MigrationEngine, Blocked, Altered, Stop;
    if t.result.Some? && t.result.value.Err? {
      if Blocked(plan, base, v, part) {
        StopIs(plan, base, v, part);
      }
    } else if part + 1 == Parts(plan, v) {
      StopIs(plan, base, v, part + 1);
    } else {
      ScriptDoes(e, plan, benign, v, part + 1, t.conn, db, busy, t.table, base);
    }
  }

  lemma BlockedLater(plan: Plan, base: Schema, v: nat, part: nat)
    ensures Blocked(plan, DoneParts(plan, base, v, part), v, part) <==> Blocked(plan, base, v, part)
  {
    DonePartsAre(plan, base, v, part);
    hide DoneParts, KindOf;
  }

  lemma DdlRest(plan: Plan, v: nat, part: nat)
    requires part < Parts(plan, v)
    ensures var text := DdlFrom(plan, v, part);
            && text != [] && text[0] == Ddl(v, part) && text[1..] == DdlFrom(plan, v, part + 1)
            && (|text| == 1 <==> part + 1 == Parts(plan, v))
  {
  }

  /** The call with the whole script of a version. */
  lemma DdlCallDoes<L(!new)>(e: Engine<Sql, L, Schema>, plan: Plan, benign: Fault -> bool, v: nat,
                             conn: Conn<L, Schema>, db: Schema, busy: bool, base: Schema)
    requires MigrationEngine(e, plan, benign) && conn.tx == Some(base)
    ensures var x := Execute(e, DdlFrom(plan, v, 0), [], conn, db, busy);
            && x.db == db
            && (x.response.fault.None? || benign(x.response.fault.value) ==>
                x.conn.tx == Some(DoneParts(plan, base, v, Stop(plan, base, v))))
  {
    assert !benign(EmbeddedNul) && !benign(Busy);
    if !HasNul(e, DdlFrom(plan, v, 0)) {
      if Parts(plan, v) == 0 {
        assert e.compile([], conn.local, conn.View(db)).Nothing?;
      } else {
        ScriptDoes(e, plan, benign, v, 0, conn, db, busy, Table([], []), base);
        hide Loop, MigrationEngine, Stop;
      }
    }
  }
}
