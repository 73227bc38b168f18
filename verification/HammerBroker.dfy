/** The load driver over the broker: the committed file is the fold of the answered turns. */
module HammerBroker {
  import opened Prelude
  import opened Engine
  import opened Script
  import B = Broker
  import H = Hammer
  import A = HammerAudit
  import I = BrokerInvariants
  import opened Discipline

  type File = H.Tables

  // ---------- what SQLite promises of the driver's statements ----------

  /** A statement that never changes the rows of the two tables. */
  predicate Quiet(stmt: H.Stmt) {
    stmt.Begin? || stmt.Commit? || stmt.Rollback? || stmt.Select? || stmt.Pragma? || stmt.Boot?
  }

  /** Without an error a statement does what it says, and leaves the transaction as it was except
      for Begin, Commit and Rollback. With an error it publishes nothing; a quiet one has not touched
      the rows, for any other anything else may have happened to the connection. */
  predicate Lawful<L>(stmt: H.Stmt, view: File, inTx: bool, ran: Ran<L, File>) {
    if ran.error.Some? then
      ran.end != Publish && (!inTx ==> ran.end == Discard) && (Quiet(stmt) && ran.end == KeepOpen ==> ran.view == view)
    else
      match stmt
      case Begin => !inTx && ran.end == KeepOpen && ran.view == view
      case Commit => inTx && ran.end == Publish && ran.view == view
      case Rollback => inTx && ran.end == Discard
      case _ => (if inTx then ran.end == KeepOpen else ran.end == Publish)
                && ran.view == H.Changed(view, stmt) && !H.Conflicts(view, stmt)
  }

  /** One letter of text is one statement; compiling it may fail. */
  ghost predicate HammerEngine<L(!new)>(e: Engine<H.Stmt, L, File>) {
    && (forall text: seq<H.Stmt>, local: L, view: File {:trigger e.compile(text, local, view)} ::
          text != [] ==> e.compile(text, local, view).Failed?
                         || (e.compile(text, local, view).Statement? && e.compile(text, local, view).tail == Some(1)))
    && (forall text: seq<H.Stmt>, binds: seq<Bind>, local: L, view: File, inTx: bool
          {:trigger e.run(text, binds, local, view, inTx)} ::
          text != [] ==> Lawful(text[0], view, inTx, e.run(text, binds, local, view, inTx)))
  }

  // ---------- one script ----------

  /** A statement that succeeded: the connection and the file before and after. */
  predicate Took<L>(stmt: H.Stmt, conn: Conn<L, File>, db: File, conn': Conn<L, File>, db': File) {
    match stmt
    case Begin => conn.tx.None? && conn'.tx == Some(db) && db' == db
    case Commit => conn.tx.Some? && conn'.tx.None? && db' == conn.tx.value
    case Rollback => conn.tx.Some? && conn'.tx.None? && db' == db
    case _ =>
      if conn.tx.Some? then conn'.tx == Some(H.Changed(conn.tx.value, stmt)) && db' == db
      else conn'.tx.None? && db' == H.Changed(db, stmt)
  }

  /** A turn of the statement loop either fails and leaves the file alone, or takes one statement. */
  lemma TurnTakes<L(!new)>(e: Engine<H.Stmt, L, File>, text: seq<H.Stmt>, conn: Conn<L, File>, db: File, busy: bool,
                    table: Table)
    requires HammerEngine(e) && text != []
    ensures var t := OneTurn(e, text, [], conn, db, busy, table);
            if t.result.Some? && t.result.value.Err? then t.db == db
            else
              Took(text[0], conn, db, t.conn, t.db)
              && (if |text| == 1 then t.result.Some? else t.result.None? && t.next == 1)
  {
    hide H.Changed, H.Conflicts, RowsOf, HasSql;
    var step := StepOf(e, text, [], conn, db);
    assert Lawful(text[0], conn.View(db), conn.tx.Some?, step.ran);
    var _ := e.compile(text, conn.local, conn.View(db));
  }

  /** The loop from one statement on, with `rest` behind it. */
  lemma LoopTakes<L(!new)>(e: Engine<H.Stmt, L, File>, stmt: H.Stmt, rest: seq<H.Stmt>,
                           conn: Conn<L, File>, db: File, busy: bool, table: Table)
    returns (conn': Conn<L, File>, db': File, table': Table)
    requires HammerEngine(e)
    ensures var o := Loop(e, [stmt] + rest, [], conn, db, busy, table);
            || (o.result.Err? && o.db == db)
            || (Took(stmt, conn, db, conn', db')
                && (if rest == [] then o.result.Ok? && o.conn == conn' && o.db == db'
                    else var o' := Loop(e, rest, [], conn', db', busy, table');
                         o.result == o'.result && o.conn == o'.conn && o.db == o'.db))
  {
    var text := [stmt] + rest;
    var t := OneTurn(e, text, [], conn, db, busy, table);
    TurnTakes(e, text, conn, db, busy, table);
    conn', db', table' := t.conn, t.db, t.table;
    hide OneTurn, Took, HammerEngine;
    assert text[1..] == rest;
  }

  /** One turn's script either succeeds and its effect is in the file as a whole, or the file is
      as it was. Success leaves the connection in autocommit. */
  lemma ScriptIsAtomic<L(!new)>(e: Engine<H.Stmt, L, File>, op: H.Op, conn: Conn<L, File>, db: File, busy: bool)
    requires HammerEngine(e)
    ensures var x := Execute(e, H.OpScript(op), [], conn, db, busy);
            if x.response.fault.Some? then x.db == db
            else x.db == H.Apply(db, op) && (!op.Read? ==> x.conn.tx.None?)
  {
    var script := H.OpScript(op);
    if !HasNul(e, script) {
      if op.Read? {
        ReadTakes(e, conn, db, busy);
      } else {
        WriteTakes(e, H.ItemStatement(op), H.InsertEvent(H.EventOf(op)), conn, db, busy);
      }
    }
  }

  lemma ReadTakes<L(!new)>(e: Engine<H.Stmt, L, File>, conn: Conn<L, File>, db: File, busy: bool)
    requires HammerEngine(e)
    ensures Loop(e, [H.Select], [], conn, db, busy, Table([], [])).db == db
  {
    hide Loop, HammerEngine;
    NoSuffix([H.Select]);
    var _, _, _ := LoopTakes(e, H.Select, [], conn, db, busy, Table([], []));
  }

  lemma WriteTakes<L(!new)>(e: Engine<H.Stmt, L, File>, a: H.Stmt, b: H.Stmt, conn: Conn<L, File>, db: File, busy: bool)
    requires HammerEngine(e) && !Quiet(a) && !Quiet(b)
    ensures var o := Loop(e, [H.Begin, a, b, H.Commit], [], conn, db, busy, Table([], []));
            if o.result.Err? then o.db == db
            else o.db == H.Changed(H.Changed(db, a), b) && o.conn.tx.None?
  {
    hide Loop, HammerEngine, H.Changed;
    var s4 := [H.Commit];
    var s3, s2, s1 := [b] + s4, [a] + ([b] + s4), [H.Begin] + ([a] + ([b] + s4));
    assert s1 == [H.Begin, a, b, H.Commit];
    var c1, d1, t1 := LoopTakes(e, H.Begin, s2, conn, db, busy, Table([], []));
    var c2, d2, t2 := LoopTakes(e, a, s3, c1, d1, busy, t1);
    var c3, d3, t3 := LoopTakes(e, b, s4, c2, d2, busy, t2);
    NoSuffix(s4);
    var _, _, _ := LoopTakes(e, H.Commit, [], c3, d3, busy, t3);
  }

  // ---------- scripts that leave the rows alone ----------

  /** The connection's working copy, if it has one, is the file. */
  predicate AtFile<L>(conn: Conn<L, File>, db: File) {
    conn.tx.None? || conn.tx.value == db
  }

  predicate AllQuiet(sql: seq<H.Stmt>) {
    forall i | 0 <= i < |sql| :: Quiet(sql[i])
  }

  lemma QuietTurn<L(!new)>(e: Engine<H.Stmt, L, File>, text: seq<H.Stmt>, conn: Conn<L, File>, db: File, busy: bool,
                           table: Table)
    requires HammerEngine(e) && text != [] && Quiet(text[0]) && AtFile(conn, db)
    ensures var t := OneTurn(e, text, [], conn, db, busy, table);
            t.db == db && AtFile(t.conn, db) && (t.result.None? ==> t.next == 1)
  {
    hide H.Conflicts, RowsOf, HasSql;
    var step := StepOf(e, text, [], conn, db);
    assert Lawful(text[0], conn.View(db), conn.tx.Some?, step.ran);
    var _ := e.compile(text, conn.local, conn.View(db));
  }

  lemma {:induction false} QuietLoop<L(!new)>(e: Engine<H.Stmt, L, File>, text: seq<H.Stmt>, conn: Conn<L, File>,
                                              db: File, busy: bool, table: Table)
    requires HammerEngine(e) && text != [] && AllQuiet(text) && AtFile(conn, db)
    ensures var o := Loop(e, text, [], conn, db, busy, table); o.db == db && AtFile(o.conn, db)
    decreases |text|
  {
    hide HammerEngine, AtFile, Quiet;
    var t := OneTurn(e, text, [], conn, db, busy, table);
    QuietTurn(e, text, conn, db, busy, table);
    hide OneTurn;
    if t.result.None? {
      assert text[t.next..] != [];
      QuietLoop(e, text[t.next..], t.conn, t.db, busy, t.table);
    }
  }

  /** A script of such statements, on a connection at the file: whatever fails, neither the file nor a
      working copy changes. */
  lemma QuietScript<L(!new)>(e: Engine<H.Stmt, L, File>, sql: seq<H.Stmt>, conn: Conn<L, File>, db: File, busy: bool)
    requires HammerEngine(e) && sql != [] && AllQuiet(sql) && AtFile(conn, db)
    ensures var x := Execute(e, sql, [], conn, db, busy); x.db == db && AtFile(x.conn, db)
  {
    QuietLoop(e, sql, conn, db, busy, Table([], []));
    hide Loop, HammerEngine, AtFile, AllQuiet;
  }

  // ---------- the broker ----------

  /** Which turn of which worker a reply channel belongs to, if any. */
  type Turns = B.Ticket -> Option<H.Op>

  /** The driver's requests: a turn's script, statements that leave the rows alone, sent while booting,
      or no statement at all. */
  predicate RequestFits(turns: Turns, req: B.Request<H.Stmt>, reply: B.Ticket) {
    match req
    case Exec(sql, params) =>
      params == [] && if turns(reply).Some? then sql == H.OpScript(turns(reply).value) else sql != [] && AllQuiet(sql)
    case _ => turns(reply).None?
  }

  predicate JobFits(turns: Turns, job: B.Job<H.Stmt>) {
    job.Req? ==> RequestFits(turns, job.req, job.reply)
  }

  /** Statements outside a turn. */
  predicate Boots(turns: Turns, req: B.Request<H.Stmt>, reply: B.Ticket) {
    req.Exec? && turns(reply).None?
  }

  /** A turn of the session was answered with a fault. */
  ghost predicate TurnFailed(turns: Turns, sent: seq<B.Sent>, id: B.Session) {
    exists i | 0 <= i < |sent| :: FailsTurn(turns, sent[i]) && sent[i].id == id
  }

  predicate FailsTurn(turns: Turns, m: B.Sent) {
    m.message.Replied? && m.message.response.fault.Some? && turns(m.reply).Some?
  }

  /** Sessions have one request outstanding, and one whose turn failed sends no statement outside a
      turn any more: the driver gives up. */
  ghost predicate Courteous<L>(e: Engine<H.Stmt, L, File>, turns: Turns, w: B.W<H.Stmt, L, File>,
                               jobs: seq<B.Job<H.Stmt>>)
    decreases |jobs|
  {
    jobs == []
    || (CourteousJob(turns, w, jobs[0]) && Courteous(e, turns, B.Handle(e, w, jobs[0]), jobs[1..]))
  }

  ghost predicate CourteousJob<L>(turns: Turns, w: B.W<H.Stmt, L, File>, job: B.Job<H.Stmt>) {
    Admissible(w, job) && (job.Req? && Boots(turns, job.req, job.reply) ==> !TurnFailed(turns, w.sent, job.id))
  }

  /** The turn a message reports as done. */
  function AnsweredTurn(turns: Turns, s: B.Sent): seq<H.Op> {
    if s.message.Replied? && s.message.response.fault.None? && turns(s.reply).Some? then [turns(s.reply).value] else []
  }

  /** The turns answered without a fault, in the order of the answers. */
  function Answered(turns: Turns, sent: seq<B.Sent>): seq<H.Op> {
    if sent == [] then [] else Answered(turns, sent[..|sent| - 1]) + AnsweredTurn(turns, sent[|sent| - 1])
  }

  lemma AnsweredGrows(turns: Turns, sent: seq<B.Sent>, s: B.Sent)
    ensures Answered(turns, sent + [s]) == Answered(turns, sent) + AnsweredTurn(turns, s)
  {
    assert (sent + [s])[..|sent + [s]| - 1] == sent;
  }

  lemma {:induction false} RefusalsAnswerNothing(turns: Turns, sent: seq<B.Sent>, pending: seq<B.Pending<H.Stmt>>,
                                                 id: B.Session)
    ensures Answered(turns, sent + B.Refusals(pending, id)) == Answered(turns, sent)
    decreases pending
  {
    hide Answered;
    if pending == [] {
      NoSuffix(sent);
    } else if pending[0].id == id {
      var s := B.Sent(pending[0].reply, id, B.Replied(ErrorResponse(true, SessionClosed)));
      AnsweredGrows(turns, sent, s);
      NoSuffix(Answered(turns, sent));
      RefusalsAnswerNothing(turns, sent + [s], pending[1..], id);
      Assoc(sent, [s], B.Refusals(pending[1..], id));
    } else {
      RefusalsAnswerNothing(turns, sent, pending[1..], id);
      NoPrefix(B.Refusals(pending[1..], id));
    }
  }

  /** The file is the fold of the answered turns; every working copy is the file, except of a session
      whose turn failed; and the queue holds requests of the driver, none outside a turn of a session
      whose turn failed. */
  ghost predicate Follows<L>(turns: Turns, d0: File, w: B.W<H.Stmt, L, File>) {
    && w.db == H.ApplyAll(d0, Answered(turns, w.sent))
    && Clean(turns, w) && QueueFits(turns, w.sent, w.pending)
  }

  ghost predicate Clean<L>(turns: Turns, w: B.W<H.Stmt, L, File>) {
    forall id | id in w.sessions :: AtFile(w.sessions[id], w.db) || TurnFailed(turns, w.sent, id)
  }

  ghost predicate QueueFits(turns: Turns, sent: seq<B.Sent>, pending: seq<B.Pending<H.Stmt>>) {
    forall i | 0 <= i < |pending| :: EntryFits(turns, sent, pending[i])
  }

  ghost predicate EntryFits(turns: Turns, sent: seq<B.Sent>, p: B.Pending<H.Stmt>) {
    RequestFits(turns, p.req, p.reply) && (Boots(turns, p.req, p.reply) ==> !TurnFailed(turns, sent, p.id))
  }

  lemma ApplyOneMore(t: File, ops: seq<H.Op>, op: H.Op)
    ensures H.ApplyAll(t, ops + [op]) == H.Apply(H.ApplyAll(t, ops), op)
  {
    assert (ops + [op])[..|ops + [op]| - 1] == ops;
  }

  /** Messages to others leave a session as it was; a failed turn stays failed. */
  lemma FailuresGrow(turns: Turns, sent: seq<B.Sent>, more: seq<B.Sent>, id: B.Session)
    requires forall m | m in more :: m.id == id
    ensures forall k | k != id :: TurnFailed(turns, sent + more, k) <==> TurnFailed(turns, sent, k)
    ensures TurnFailed(turns, sent, id) ==> TurnFailed(turns, sent + more, id)
    ensures (exists m :: m in more && FailsTurn(turns, m)) ==> TurnFailed(turns, sent + more, id)
  {
    hide FailsTurn;
    var sent' := sent + more;
    forall i | |sent| <= i < |sent'| ensures sent'[i].id == id {
      assert sent'[i] in more;
    }
    forall k | TurnFailed(turns, sent, k) ensures TurnFailed(turns, sent', k) {
      var i :| 0 <= i < |sent| && FailsTurn(turns, sent[i]) && sent[i].id == k;
      assert sent'[i] == sent[i];
    }
    forall k | k != id && TurnFailed(turns, sent', k) ensures TurnFailed(turns, sent, k) {
      var i :| 0 <= i < |sent'| && FailsTurn(turns, sent'[i]) && sent'[i].id == k;
      assert sent[i] == sent'[i];
    }
    if m :| m in more && FailsTurn(turns, m) {
      var i :| 0 <= i < |more| && more[i] == m;
      assert sent'[|sent| + i] == m;
    }
  }

  lemma QueueStaysFit(turns: Turns, sent: seq<B.Sent>, more: seq<B.Sent>, id: B.Session,
                      pending: seq<B.Pending<H.Stmt>>)
    requires QueueFits(turns, sent, pending) && forall m | m in more :: m.id == id
    requires forall i | 0 <= i < |pending| :: pending[i].id != id
    ensures QueueFits(turns, sent + more, pending)
  {
    FailuresGrow(turns, sent, more, id);
    hide TurnFailed, RequestFits, Boots;
    forall i | 0 <= i < |pending| ensures EntryFits(turns, sent + more, pending[i]) {
      assert EntryFits(turns, sent, pending[i]);
    }
  }

  // ---------- one request ----------

  /** What an Exec of the driver does: a turn that fails leaves the file alone, one that succeeds takes
      effect as a whole; statements outside a turn change no rows. */
  lemma ExecTakes<L(!new)>(e: Engine<H.Stmt, L, File>, turns: Turns, req: B.Request<H.Stmt>, reply: B.Ticket,
                           conn: Conn<L, File>, db: File, busy: bool)
    requires HammerEngine(e) && req.Exec? && RequestFits(turns, req, reply)
    requires Boots(turns, req, reply) ==> AtFile(conn, db)
    ensures var x := Execute(e, req.sql, req.params, conn, db, busy);
            && (turns(reply).None? || x.response.fault.Some? ==> x.db == db)
            && (turns(reply).Some? && x.response.fault.None? ==> x.db == H.Apply(db, turns(reply).value))
            && (AtFile(conn, db) && (turns(reply).None? || x.response.fault.None?) ==> AtFile(x.conn, x.db))
  {
    hide HammerEngine, Execute, H.Apply;
    if turns(reply).None? {
      QuietScript(e, req.sql, conn, db, busy);
    } else {
      ScriptIsAtomic(e, turns(reply).value, conn, db, busy);
      if turns(reply).value.Read? && AtFile(conn, db) {
        QuietScript(e, [H.Select], conn, db, busy);
        assert H.Apply(db, turns(reply).value) == db by { ReadsChangeNothing(db, turns(reply).value); }
      }
    }
  }

  lemma ReadsChangeNothing(db: File, op: H.Op)
    requires op.Read?
    ensures H.Apply(db, op) == db
  {
  }

  /** The fold after one answer. */
  lemma FoldGrows(turns: Turns, d0: File, sent: seq<B.Sent>, db: File, m: B.Sent, db': File)
    requires db == H.ApplyAll(d0, Answered(turns, sent))
    requires AnsweredTurn(turns, m) == [] ==> db' == db
    requires AnsweredTurn(turns, m) != [] ==> db' == H.Apply(db, AnsweredTurn(turns, m)[0])
    ensures db' == H.ApplyAll(d0, Answered(turns, sent + [m]))
  {
    AnsweredGrows(turns, sent, m);
    hide H.ApplyAll, H.Apply, Answered;
    if AnsweredTurn(turns, m) == [] {
      NoSuffix(Answered(turns, sent));
    } else {
      ApplyOneMore(d0, Answered(turns, sent), AnsweredTurn(turns, m)[0]);
    }
  }

  lemma ExecFollows<L(!new)>(e: Engine<H.Stmt, L, File>, turns: Turns, d0: File, w: B.W<H.Stmt, L, File>,
                             p: B.Pending<H.Stmt>, held: bool)
    requires HammerEngine(e) && Follows(turns, d0, w) && I.Core(w) && I.MayRun(w, p.id) && p.req.Exec?
    requires EntryFits(turns, w.sent, p) && forall i | 0 <= i < |w.pending| :: w.pending[i].id != p.id
    requires p.id in w.sessions
    ensures Follows(turns, d0, B.RunExec(e, w, p, held))
  {
    hide HammerEngine, H.ApplyAll, H.Apply, Execute, Answered, TurnFailed, RequestFits;
    var busy, conn, w' := B.OthersLocked(w.sessions, p.id), w.sessions[p.id], B.RunExec(e, w, p, held);
    var x := Execute(e, p.req.sql, p.req.params, conn, w.db, busy);
    var m := B.Sent(p.reply, p.id, B.Replied(x.response));
    ExecTakes(e, turns, p.req, p.reply, conn, w.db, busy);
    FoldGrows(turns, d0, w.sent, w.db, m, x.db);
    QueueStaysFit(turns, w.sent, [m], p.id, w.pending);
    FailuresGrow(turns, w.sent, [m], p.id);
    assert turns(p.reply).Some? && x.response.fault.Some? ==> m in [m] && FailsTurn(turns, m);
    hide QueueFits, EntryFits, B.OthersLocked;
    forall id | id in w'.sessions ensures AtFile(w'.sessions[id], w'.db) || TurnFailed(turns, w'.sent, id) {
      assert AtFile(w.sessions[id], w.db) || TurnFailed(turns, w.sent, id);
    }
  }

  /** A message that answers no turn. */
  lemma NoticeFollows<L>(turns: Turns, d0: File, w: B.W<H.Stmt, L, File>, m: B.Sent)
    requires Follows(turns, d0, w) && AnsweredTurn(turns, m) == []
    requires FailsTurn(turns, m) ==> forall i | 0 <= i < |w.pending| :: w.pending[i].id != m.id
    ensures Follows(turns, d0, w.(sent := w.sent + [m]))
  {
    hide H.ApplyAll, H.Apply, Answered, AtFile, RequestFits, Boots;
    FoldGrows(turns, d0, w.sent, w.db, m, w.db);
    FailuresGrow(turns, w.sent, [m], m.id);
    if !FailsTurn(turns, m) {
      NoFailure(turns, w.sent, m, m.id);
    }
    hide TurnFailed, FailsTurn, AnsweredTurn;
    forall i | 0 <= i < |w.pending| ensures EntryFits(turns, w.sent + [m], w.pending[i]) {
      assert EntryFits(turns, w.sent, w.pending[i]);
    }
  }

  lemma NoFailure(turns: Turns, sent: seq<B.Sent>, m: B.Sent, id: B.Session)
    requires !FailsTurn(turns, m)
    ensures TurnFailed(turns, sent + [m], id) <==> TurnFailed(turns, sent, id)
  {
    hide FailsTurn;
    assert forall i | 0 <= i < |sent| :: (sent + [m])[i] == sent[i];
  }

  lemma DispatchFollows<L(!new)>(e: Engine<H.Stmt, L, File>, turns: Turns, d0: File, w: B.W<H.Stmt, L, File>,
                                 p: B.Pending<H.Stmt>, held: bool)
    requires HammerEngine(e) && Follows(turns, d0, w) && I.Core(w) && I.MayRun(w, p.id) && !p.req.Close?
    requires EntryFits(turns, w.sent, p) && forall i | 0 <= i < |w.pending| :: w.pending[i].id != p.id
    ensures Follows(turns, d0, B.Dispatch(e, w, p, held))
  {
    if p.req.Exec? && p.id in w.sessions {
      ExecFollows(e, turns, d0, w, p, held);
      hide Follows, B.RunExec;
    } else {
      hide HammerEngine, Follows, Prepared, I.Core;
      var busy := B.OthersLocked(w.sessions, p.id);
      var r := if p.id in w.sessions then Prepared(e, p.req.sql, w.sessions[p.id], w.db, busy)
               else ErrorResponse(true, NoSession);
      NoticeFollows(turns, d0, w, B.Sent(p.reply, p.id, B.Replied(r)));
      OtherFields(turns, d0, w.(sent := w.sent + [B.Sent(p.reply, p.id, B.Replied(r))]), B.Dispatch(e, w, p, held));
    }
  }

  /** Only the sessions, the queue, the file and the messages matter. */
  lemma OtherFields<L>(turns: Turns, d0: File, w: B.W<H.Stmt, L, File>, w': B.W<H.Stmt, L, File>)
    requires Follows(turns, d0, w) && w'.sessions == w.sessions && w'.db == w.db && w'.sent == w.sent
    requires w'.pending == w.pending
    ensures Follows(turns, d0, w')
  {
    hide H.ApplyAll, Answered, AtFile, TurnFailed, EntryFits;
  }

  lemma DropFollows<L>(turns: Turns, d0: File, w: B.W<H.Stmt, L, File>, id: B.Session)
    requires Follows(turns, d0, w)
    ensures Follows(turns, d0, B.DropSession(w, id))
  {
    hide H.ApplyAll, Answered, AtFile, EntryFits, TurnFailed;
    I.WithoutKeeps(w.pending, id);
    I.RefusalsAreClosed(w.pending, id);
    RefusalsAnswerNothing(turns, w.sent, w.pending, id);
    FailuresGrow(turns, w.sent, B.Refusals(w.pending, id), id);
    var kept := B.Without(w.pending, id);
    forall i | 0 <= i < |kept| ensures EntryFits(turns, w.sent, kept[i]) && kept[i].id != id {
      assert kept[i] in w.pending;
    }
    hide B.Without, B.Refusals;
    QueueStaysFit(turns, w.sent, B.Refusals(w.pending, id), id, kept);
  }

  // ---------- runs ----------

  lemma PopFollows<L>(turns: Turns, d0: File, w: B.W<H.Stmt, L, File>)
    requires Follows(turns, d0, w) && Disciplined(w) && w.pending != []
    ensures var rest := w.(pending := w.pending[1..]);
            && Follows(turns, d0, rest) && EntryFits(turns, w.sent, w.pending[0])
            && Disciplined(rest) && forall i | 0 <= i < |rest.pending| :: rest.pending[i].id != w.pending[0].id
  {
    hide H.ApplyAll, Answered, AtFile, EntryFits, TurnFailed;
  }

  lemma {:induction false} PumpFollows<L(!new)>(e: Engine<H.Stmt, L, File>, turns: Turns, d0: File,
                                                w: B.W<H.Stmt, L, File>)
    requires HammerEngine(e) && Follows(turns, d0, w) && I.Core(w) && Disciplined(w)
    ensures Follows(turns, d0, B.Pump(e, w))
    decreases |w.pending|
  {
    hide HammerEngine, B.Dispatch, Follows, EntryFits;
    if w.holder.None? && w.pending != [] {
      var p, rest := w.pending[0], w.(pending := w.pending[1..]);
      PopFollows(turns, d0, w);
      DispatchFollows(e, turns, d0, rest, p, false);
      DispatchAnswers(e, rest, p, false);
      I.DispatchKeepsCore(e, rest, p, false);
      PumpFollows(e, turns, d0, B.Dispatch(e, rest, p, false));
    }
  }

  lemma EnqueueFollows<L>(turns: Turns, d0: File, w: B.W<H.Stmt, L, File>, job: B.Job<H.Stmt>)
    requires Follows(turns, d0, w) && job.Req? && EntryFits(turns, w.sent, B.Pending(job.id, job.req, job.reply))
    ensures Follows(turns, d0, B.Enqueue(w, job))
  {
    hide H.ApplyAll, Answered, AtFile, EntryFits, TurnFailed;
  }

  lemma ActFollows<L(!new)>(e: Engine<H.Stmt, L, File>, turns: Turns, d0: File, w: B.W<H.Stmt, L, File>,
                            job: B.Job<H.Stmt>)
    requires HammerEngine(e) && Follows(turns, d0, w) && JobFits(turns, job) && I.Inv(w) && Disciplined(w)
    requires CourteousJob(turns, w, job) && !B.Waits(w, job)
    ensures Follows(turns, d0, B.Act(e, w, job))
  {
    hide HammerEngine, Follows, B.Dispatch, B.DropSession, TurnFailed, RequestFits;
    var w' := B.Act(e, w, job);
    match job {
      case Open(id, reply, opens) =>
        var w1 := if opens then w.(sessions := w.sessions[id := NewConn(e)]) else w;
        OpenFollows(e, turns, d0, w, id);
        NoticeFollows(turns, d0, w1, B.Sent(reply, id, B.Opened(opens)));
        OtherFields(turns, d0, w1.(sent := w1.sent + [B.Sent(reply, id, B.Opened(opens))]), w');
      case Drop(id, reply) =>
        DropFollows(turns, d0, w, id);
        NoticeFollows(turns, d0, B.DropSession(w, id), B.Sent(reply, id, B.Dropped));
      case Req(id, req, reply) =>
        if req.Close? {
          DropFollows(turns, d0, w, id);
          assert turns(reply).None? by { ClosesAskNothing(turns, req, reply); }
          NoticeFollows(turns, d0, B.DropSession(w, id), B.Sent(reply, id, B.Replied(CLOSED_RESPONSE)));
          assert w' == B.DropSession(w, id).(sent := B.DropSession(w, id).sent
                         + [B.Sent(reply, id, B.Replied(CLOSED_RESPONSE))]) by { CloseActs(e, w, job); }
        } else {
          DispatchFollows(e, turns, d0, w, B.Pending(id, req, reply), w.holder == Some(id));
        }
    }
  }

  lemma CloseActs<L>(e: Engine<H.Stmt, L, File>, w: B.W<H.Stmt, L, File>, job: B.Job<H.Stmt>)
    requires job.Req? && job.req.Close?
    ensures B.Act(e, w, job) == B.DropSession(w, job.id).(sent := B.DropSession(w, job.id).sent
            + [B.Sent(job.reply, job.id, B.Replied(CLOSED_RESPONSE))])
  {
    hide B.DropSession;
  }

  lemma ClosesAskNothing(turns: Turns, req: B.Request<H.Stmt>, reply: B.Ticket)
    requires RequestFits(turns, req, reply) && !req.Exec?
    ensures turns(reply).None?
  {
  }

  lemma OpenFollows<L>(e: Engine<H.Stmt, L, File>, turns: Turns, d0: File, w: B.W<H.Stmt, L, File>, id: B.Session)
    requires Follows(turns, d0, w)
    ensures Follows(turns, d0, w.(sessions := w.sessions[id := NewConn(e)]))
  {
    hide H.ApplyAll, Answered, EntryFits, TurnFailed;
  }

  lemma HandleFollows<L(!new)>(e: Engine<H.Stmt, L, File>, turns: Turns, d0: File, w: B.W<H.Stmt, L, File>,
                               job: B.Job<H.Stmt>)
    requires HammerEngine(e) && Follows(turns, d0, w) && JobFits(turns, job) && I.Inv(w) && Disciplined(w)
    requires CourteousJob(turns, w, job)
    ensures var w' := B.Handle(e, w, job); Follows(turns, d0, w') && I.Inv(w') && Disciplined(w')
  {
    I.HandleKeepsInv(e, w, job);
    HandleIsOrderly(e, w, job);
    hide HammerEngine, Follows, B.Act, B.Pump, TurnFailed, RequestFits, B.Enqueue, Boots;
    if B.Waits(w, job) {
      EnqueueFollows(turns, d0, w, job);
    } else {
      ActFollows(e, turns, d0, w, job);
      ActAnswers(e, w, job);
      PumpFollows(e, turns, d0, B.Act(e, w, job));
    }
  }

  lemma {:induction false} JobsFollow<L(!new)>(e: Engine<H.Stmt, L, File>, turns: Turns, d0: File,
                                               w: B.W<H.Stmt, L, File>, jobs: seq<B.Job<H.Stmt>>)
    requires HammerEngine(e) && Follows(turns, d0, w) && I.Inv(w) && Disciplined(w)
    requires (forall i | 0 <= i < |jobs| :: JobFits(turns, jobs[i])) && Courteous(e, turns, w, jobs)
    ensures Follows(turns, d0, B.RunJobs(e, w, jobs))
    decreases |jobs|
  {
    hide HammerEngine, Follows, B.Handle, JobFits, I.Inv, Disciplined, CourteousJob;
    if jobs != [] {
      HandleFollows(e, turns, d0, w, jobs[0]);
      JobsFollow(e, turns, d0, B.Handle(e, w, jobs[0]), jobs[1..]);
    }
  }

  lemma StartFollows<L>(turns: Turns, d0: File)
    ensures Follows<L>(turns, d0, B.Start(d0)) && I.Inv<H.Stmt, L, File>(B.Start(d0))
    ensures Disciplined<H.Stmt, L, File>(B.Start(d0))
  {
  }

  /** In every run of the driver's requests, whatever fails, waits or disconnects, and whoever boots
      meanwhile in a transaction of several calls: the file holds exactly the turns that were answered
      without a fault, each as a whole, in the order of the answers. */
  lemma FileIsFold<L(!new)>(e: Engine<H.Stmt, L, File>, turns: Turns, d0: File, jobs: seq<B.Job<H.Stmt>>)
    requires HammerEngine(e) && forall i | 0 <= i < |jobs| :: JobFits(turns, jobs[i])
    requires Courteous(e, turns, B.Start(d0), jobs)
    ensures var w := B.RunJobs(e, B.Start(d0), jobs);
            && w.db == H.ApplyAll(d0, Answered(turns, w.sent))
            && forall id | id in w.sessions :: AtFile(w.sessions[id], w.db) || TurnFailed(turns, w.sent, id)
  {
    var w: B.W<H.Stmt, L, File> := B.Start(d0);
    StartFollows<L>(turns, d0);
    hide HammerEngine, B.RunJobs, JobFits, Courteous, I.Inv, Disciplined, AtFile, TurnFailed;
    JobsFollow(e, turns, d0, w, jobs);
  }

  /** If the answered turns are in program order, the file agrees with what a worker claims about
      its own answered turns. */
  lemma TurnsAgree<L(!new)>(e: Engine<H.Stmt, L, File>, turns: Turns, jobs: seq<B.Job<H.Stmt>>, worker: nat)
    requires HammerEngine(e) && forall i | 0 <= i < |jobs| :: JobFits(turns, jobs[i])
    requires Courteous(e, turns, B.Start(H.EMPTY), jobs)
    requires var order := Answered(turns, B.RunJobs(e, B.Start(H.EMPTY), jobs).sent);
             A.Interleaves(order) && H.ClaimOf(worker, A.Projection(order, worker)).Writes() > 0
    ensures var w := B.RunJobs(e, B.Start(H.EMPTY), jobs);
            H.Audited(w.db, H.ClaimOf(worker, A.Projection(Answered(turns, w.sent), worker)))
  {
    hide HammerEngine, B.RunJobs, JobFits, Answered, A.Interleaves, A.Projection, H.ClaimOf, H.Audited;
    FileIsFold(e, turns, H.EMPTY, jobs);
    A.AuditPasses(Answered(turns, B.RunJobs(e, B.Start(H.EMPTY), jobs).sent), worker);
  }
}
