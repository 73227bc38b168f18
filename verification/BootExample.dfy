/** An engine that keeps the promises of a migration, and one run that shows both shortfalls: an
    answer lost on the way, and a part that is never applied. */
module BootExample {
  import opened Prelude
  import opened Engine
  import opened Script
  import opened Broker
  import opened Migration
  import opened Boot
  import opened BootRuns
  import O = BootOutcome
  import T = BootTheorems

  // ---------- an engine ----------

  function IdealRun(plan: Plan, stmt: Sql, view: Schema, inTx: bool): Ran<(), Schema> {
    match stmt
    case Begin => Ran([], if inTx then Some(2) else None, (), view, KeepOpen)
    case Commit => if inTx then Ran([], None, (), view, Publish) else Ran([], Some(2), (), view, Discard)
    case Rollback => Ran([], if inTx then None else Some(2), (), view, Discard)
    case CountVersion(v) => Ran([[Int(if v in view.marks then 1 else 0)]], None, (), view, if inTx then KeepOpen
        else Publish)
    case _ =>
      if stmt.Ddl? && Blocked(plan, view, stmt.v, stmt.part)
          then Ran([], Some(1), (), view, if inTx then KeepOpen else Discard)
      else Ran([], None, (), Changed(plan, view, stmt), if inTx then KeepOpen else Publish)
  }

  function IdealCompile(plan: Plan, text: seq<Sql>, view: Schema): Compiled {
    if text == [] then Nothing(None)
    else if text[0].Ddl? && Blocked(plan, view, text[0].v, text[0].part) then Failed(1)
    else Statement(Some(1), [])
  }

  /** One letter of text is one statement; a blocked DDL part does not compile. */
  function Ideal(plan: Plan): Engine<Sql, (), Schema> {
    Engine((), _ => false, _ => false,
           (text, _, view) => IdealCompile(plan, text, view),
           (_, _) => true,
           (text, _, _, view, inTx) =>
             if text == [] then Ran([], Some(2), (), view, Discard) else IdealRun(plan, text[0], view, inTx),
           _ => ZERO_COUNTERS)
  }

  const IGNORED: Fault -> bool := f => f == Sqlite(1)

  lemma IdealIsLawful(plan: Plan)
    ensures MigrationEngine(Ideal(plan), plan, IGNORED)
  {
    hide Blocked, Altered;
  }

  // ---------- the run ----------

  /** One version of two parts that cannot be repeated, the first of which is in effect already. */
  const GAP := Setup([[Strict, Strict]], IGNORED, Schema(false, {}, multiset{(1, 0)}))

  const ENGINE := Ideal(GAP.plan)

  /** A call that succeeds, or fails only because the first part is in effect. */
  predicate CanCall(pc: PC, tx: Option<Schema>) {
    match pc
    case Creating => tx.None?
    case Starting(_) => tx.None?
    case Altering(v) => v == 1 && tx.Some? && tx.value.applied[(1, 0)] > 0
    case Undoing => false
    case Finished => false
    case GaveUp => false
    case _ => tx.Some?
  }

  /** Where such a call leaves its process, its connection and the file. */
  function AfterCall(pc: PC, tx: Option<Schema>, db: Schema): (PC, Option<Schema>, Schema)
    requires CanCall(pc, tx)
  {
    match pc
    case Creating => (StartNext(GAP.plan, 1), None, db.(ledger := true))
    case Starting(v) => (Asking(v), Some(db), db)
    case Asking(v) => (Counting(v), tx, db)
    case Counting(v) => (if v in tx.value.marks then Skipping(v) else Altering(v), tx, db)
    case Skipping(v) => (StartNext(GAP.plan, v + 1), None, tx.value)
    case Altering(v) => (Marking(v), tx, db)
    case Marking(v) => (Committing(v), Some(tx.value.(marks := tx.value.marks + {v})), db)
    case Committing(v) => (StartNext(GAP.plan, v + 1), None, tx.value)
  }

  lemma SingleCall(stmt: Sql, tx: Option<Schema>, db: Schema)
    requires !stmt.Ddl?
    ensures var conn := Conn((), tx, 0);
            var ran := IdealRun(GAP.plan, stmt, conn.View(db), tx.Some?);
            var x := Execute(ENGINE, [stmt], [], conn, db, false);
            (x.conn, x.db) == conn.Landed(db, ran)
            && (ran.error.None? ==> x.response.fault.None? && x.response.rows == RowsOf(ran.rows))
  {
    hide Changed, RowsOf;
    assert !HasNul(ENGINE, [stmt]);
    NoPrefix(RowsOf(IdealRun(GAP.plan, stmt, Conn((), tx, 0).View(db), tx.Some?).rows));
  }

  lemma DdlCall(tx: Option<Schema>, db: Schema)
    requires tx.Some? && tx.value.applied[(1, 0)] > 0
    ensures var x := Execute(ENGINE, DdlFrom(GAP.plan, 1, 0), [], Conn((), tx, 0), db, false);
            x.conn == Conn((), tx, 0) && x.db == db && x.response.fault == Some(Sqlite(1))
  {
    var text := DdlFrom(GAP.plan, 1, 0);
    DdlRest(GAP.plan, 1, 0);
    assert Blocked(GAP.plan, tx.value, 1, 0);
    assert !HasNul(ENGINE, text);
    hide DdlFrom;
  }

  lemma ExecCall(pc: PC, text: seq<Sql>, tx: Option<Schema>, db: Schema)
    requires CanCall(pc, tx) && Wanted(GAP.plan, pc) == Some(Exec(text, []))
    ensures var x := Execute(ENGINE, text, [], Conn((), tx, 0), db, false);
            var (pc', tx', db') := AfterCall(pc, tx, db);
            && AfterAnswer(GAP.plan, pc, x.response, IGNORED) == pc' && x.conn == Conn((), tx', 0) && x.db == db'
            && (pc.Committing? ==> x.response.fault.None?)
  {
    hide Execute;
    if pc.Altering? {
      DdlCall(tx, db);
    } else {
      assert text == [text[0]];
      SingleCall(text[0], tx, db);
      if pc.Counting? {
        OneCount(IdealRun(GAP.plan, text[0], tx.value, true).rows, if pc.v in tx.value.marks then 1 else 0);
      }
      hide RowsOf;
    }
  }

  /** One process alone with the broker, its answers all heard. */
  ghost predicate Alone(b: World<()>, id: Session, pc: PC, tx: Option<Schema>, db: Schema) {
    && b.w.sessions == map[id := Conn((), tx, 0)] && b.w.db == db && b.w.pending == []
    && b.w.holder == (if tx.Some? then Some(id) else None)
    && id in b.procs && b.procs[id] == Proc(pc, |AnswersTo(b, id)|, true) && b.returned == [] && TicketsFit(b)
  }

  lemma HandleAlone(b: World<()>, id: Session, pc: PC, tx: Option<Schema>, db: Schema, req: Request<Sql>, t: Ticket)
    requires Alone(b, id, pc, tx, db) && !req.Close?
    ensures !OthersLocked(b.w.sessions, id)
    ensures Handle(ENGINE, b.w, Req(id, req, t)) == Dispatch(ENGINE, b.w, Pending(id, req, t), b.w.holder == Some(id))
  {
    hide RunExec, RunPrepare, TicketsFit, AnswersTo;
    var w' := Dispatch(ENGINE, b.w, Pending(id, req, t), b.w.holder == Some(id));
    assert w'.pending == [] by { SamePending(b.w, Pending(id, req, t), b.w.holder == Some(id)); }
    hide Dispatch;
    assert Pump(ENGINE, w') == w';
  }

  lemma SamePending(w: W<Sql, (), Schema>, p: Pending<Sql>, held: bool)
    requires !p.req.Close?
    ensures Dispatch(ENGINE, w, p, held).pending == w.pending
  {
    hide Execute, Prepared;
  }

  /** An Exec of the only session. */
  lemma ExecAlone(w: W<Sql, (), Schema>, id: Session, tx: Option<Schema>, text: seq<Sql>, t: Ticket)
    requires w.sessions == map[id := Conn((), tx, 0)] && w.holder == (if tx.Some? then Some(id) else None)
    ensures var x := Execute(ENGINE, text, [], Conn((), tx, 0), w.db, false);
            var w' := Dispatch(ENGINE, w, Pending(id, Exec(text, []), t), w.holder == Some(id));
            && w'.sessions == map[id := x.conn] && w'.db == x.db && w'.pending == w.pending
            && w'.holder == (if x.conn.tx.Some? then Some(id) else None)
            && w'.sent == w.sent + [Sent(t, id, Replied(x.response))]
  {
    assert !OthersLocked(w.sessions, id);
    var x := Execute(ENGINE, text, [], Conn((), tx, 0), w.db, false);
    assert x.response.autocommit == x.conn.tx.None?;
    hide Execute;
    assert map[id := Conn((), tx, 0)][id := x.conn] == map[id := x.conn];
  }

  /** The worker serves a lone call. */
  lemma LoneExec(b: World<()>, id: Session, pc: PC, tx: Option<Schema>, db: Schema, text: seq<Sql>, t: Ticket)
    returns (r: Response)
    requires Alone(b, id, pc, tx, db) && CanCall(pc, tx) && Wanted(GAP.plan, pc) == Some(Exec(text, []))
    ensures var w', (pc', tx', db') := Handle(ENGINE, b.w, Req(id, Exec(text, []), t)), AfterCall(pc, tx, db);
            && w'.sessions == map[id := Conn((), tx', 0)] && w'.db == db' && w'.pending == []
            && w'.holder == (if tx'.Some? then Some(id) else None)
            && w'.sent == b.w.sent + [Sent(t, id, Replied(r))]
            && AfterAnswer(GAP.plan, pc, r, IGNORED) == pc' && (pc.Committing? ==> r.fault.None?)
  {
    hide Execute, AfterCall, AfterAnswer, Wanted, CanCall, Handle, Dispatch, TicketsFit, AnswersTo;
    ExecCall(pc, text, tx, db);
    HandleAlone(b, id, pc, tx, db, Exec(text, []), t);
    ExecAlone(b.w, id, tx, text, t);
    r := Execute(ENGINE, text, [], Conn((), tx, 0), db, false).response;
  }

  lemma LonePrepare(b: World<()>, id: Session, v: nat, tx: Option<Schema>, db: Schema, t: Ticket) returns (r: Response)
    requires Alone(b, id, Asking(v), tx, db) && tx.Some?
    ensures var w' := Handle(ENGINE, b.w, Req(id, Prepare([CountVersion(v)]), t));
            && w'.sessions == b.w.sessions && w'.db == db && w'.pending == [] && w'.holder == b.w.holder
            && w'.sent == b.w.sent + [Sent(t, id, Replied(r))] && r.fault.None?
  {
    HandleAlone(b, id, Asking(v), tx, db, Prepare([CountVersion(v)]), t);
    r := Prepared(ENGINE, [CountVersion(v)], Conn((), tx, 0), db, false);
    assert r.fault.None?;
    hide Handle, TicketsFit, AnswersTo, Prepared;
  }

  lemma LoneService(b: World<()>, id: Session, pc: PC, tx: Option<Schema>, db: Schema, req: Request<Sql>, t: Ticket)
    returns (r: Response)
    requires Alone(b, id, pc, tx, db) && CanCall(pc, tx) && Wanted(GAP.plan, pc) == Some(req)
    ensures var w', (pc', tx', db') := Handle(ENGINE, b.w, Req(id, req, t)), AfterCall(pc, tx, db);
            && w'.sessions == map[id := Conn((), tx', 0)] && w'.db == db' && w'.pending == []
            && w'.holder == (if tx'.Some? then Some(id) else None)
            && w'.sent == b.w.sent + [Sent(t, id, Replied(r))]
            && AfterAnswer(GAP.plan, pc, r, IGNORED) == pc' && (pc.Committing? ==> r.fault.None?)
  {
    hide Handle, TicketsFit, AnswersTo;
    if pc.Asking? {
      r := LonePrepare(b, id, pc.v, tx, db, t);
    } else {
      assert req == Exec(req.sql, []);
      r := LoneExec(b, id, pc, tx, db, req.sql, t);
    }
  }

  /** It sends its call, and the answer is there to be heard. */
  lemma SendAlone(b: World<()>, id: Session, pc: PC, tx: Option<Schema>, db: Schema) returns (r: Response)
    requires Alone(b, id, pc, tx, db) && CanCall(pc, tx)
    ensures Enabled(GAP, b, Send(id))
    ensures var b', (pc', tx', db') := Do(ENGINE, GAP, b, Send(id)), AfterCall(pc, tx, db);
            && b'.w.sessions == map[id := Conn((), tx', 0)] && b'.w.db == db' && b'.w.pending == []
            && b'.w.holder == (if tx'.Some? then Some(id) else None)
            && b'.procs == b.procs && b'.returned == [] && TicketsFit(b')
            && AnswersTo(b', id) == AnswersTo(b, id) + [r]
            && AfterAnswer(GAP.plan, pc, r, IGNORED) == pc' && (pc.Committing? ==> r.fault.None?)
  {
    assert Wanted(GAP.plan, pc).Some?;
    var req := Wanted(GAP.plan, pc).value;
    r := LoneService(b, id, pc, tx, db, req, b.tickets);
    hide Handle, AfterCall, AfterAnswer, Wanted, CanCall;
    TicketsStay(ENGINE, GAP, b, Send(id));
    NoMessageYet(b);
    hide TicketsFit;
    NewChannel(GAP, b.calls, b.w.sent, b.tickets);
    AnswersGrow(b.calls + {b.tickets}, b.w.sent, Sent(b.tickets, id, Replied(r)), id);
    hide Answers;
  }

  lemma TwoSteps<L>(e: Engine<Sql, L, Schema>, u: Setup, b: World<L>, first: Action, second: Action)
    requires Enabled(u, b, first) && Enabled(u, Do(e, u, b, first), second)
    ensures Run(e, u, b, [first, second]) == Some(Do(e, u, Do(e, u, b, first), second))
  {
    hide Do, Enabled;
    assert [first, second][1..] == [second] && [second][1..] == [];
    assert Run(e, u, Do(e, u, b, first), [second]) == Run(e, u, Do(e, u, Do(e, u, b, first), second), []);
  }

  /** One call and its answer. */
  lemma CallAlone(b: World<()>, id: Session, pc: PC, tx: Option<Schema>, db: Schema) returns (b': World<()>)
    requires Alone(b, id, pc, tx, db) && CanCall(pc, tx) && !pc.Committing?
    ensures Run(ENGINE, GAP, b, [Send(id), Hear(id)]) == Some(b')
    ensures var (pc', tx', db') := AfterCall(pc, tx, db); Alone(b', id, pc', tx', db')
    ensures b'.procs.Keys == b.procs.Keys
  {
    hide AfterCall, AfterAnswer, CanCall, Handle, Answers, Wanted, TicketsFit, Run;
    var r := SendAlone(b, id, pc, tx, db);
    var b1 := Do(ENGINE, GAP, b, Send(id));
    b' := Heard(GAP, b1, id);
    T.SameTickets(b1, b');
    assert Do(ENGINE, GAP, b1, Hear(id)) == b';
    TwoSteps(ENGINE, GAP, b, Send(id), Hear(id));
  }

  lemma {:induction false} RunAppend<L>(e: Engine<Sql, L, Schema>, u: Setup, b: World<L>, first: seq<Action>,
                                        then1: seq<Action>)
    requires Run(e, u, b, first).Some?
    ensures Run(e, u, b, first + then1) == Run(e, u, Run(e, u, b, first).value, then1)
    decreases |first|
  {
    hide Do, Enabled;
    if first == [] {
      NoPrefix(then1);
    } else {
      AppendParts(first, then1);
      RunAppend(e, u, Do(e, u, b, first[0]), first[1..], then1);
    }
  }

  /** `b` is reached by `done` from the start. */
  ghost predicate Reached(done: seq<Action>, b: World<()>) {
    Run(ENGINE, GAP, NewWorld(GAP.before), done) == Some(b)
  }

  lemma MoreReached(done: seq<Action>, b: World<()>, more: seq<Action>, b': World<()>)
    requires Reached(done, b) && Run(ENGINE, GAP, b, more) == Some(b')
    ensures Reached(done + more, b')
  {
    hide Run;
    RunAppend(ENGINE, GAP, NewWorld(GAP.before), done, more);
  }

  lemma CallMore(done: seq<Action>, b: World<()>, id: Session, pc: PC, tx: Option<Schema>, db: Schema)
    returns (done': seq<Action>, b': World<()>)
    requires Reached(done, b) && Alone(b, id, pc, tx, db) && CanCall(pc, tx) && !pc.Committing?
    ensures Reached(done', b') && (var (pc', tx', db') := AfterCall(pc, tx, db); Alone(b', id, pc', tx', db'))
    ensures b'.procs.Keys == b.procs.Keys
  {
    hide Alone, AfterCall, Run, CanCall, Reached;
    b' := CallAlone(b, id, pc, tx, db);
    done' := done + [Send(id), Hear(id)];
    MoreReached(done, b, [Send(id), Hear(id)], b');
  }

  /** Nobody is connected. */
  ghost predicate Quiet(b: World<()>, db: Schema) {
    b.w.sessions == map[] && b.w.db == db && b.w.pending == [] && b.w.holder == None && b.returned == []
        && TicketsFit(b)
  }

  lemma ArriveAlone(done: seq<Action>, b: World<()>, id: Session, db: Schema)
    returns (done': seq<Action>, b': World<()>)
    requires Reached(done, b) && Quiet(b, db) && id !in b.procs
    ensures Reached(done', b') && Alone(b', id, Creating, None, db) && b'.procs.Keys == b.procs.Keys + {id}
  {
    hide Reached, TicketsFit, WorldFits, HeardFits, Do, Run;
    assert Run(ENGINE, GAP, NewWorld(GAP.before), done) == Some(b) by { ReachedMeans(done, b); }
    IdealIsLawful(GAP.plan);
    O.RunFits(ENGINE, GAP, done);
    NoMail(b, id);
    b' := ArriveStep(b, id, db);
    done' := done + [Arrive(id, true)];
    MoreReached(done, b, [Arrive(id, true)], b');
  }

  lemma ReachedMeans(done: seq<Action>, b: World<()>)
    requires Reached(done, b)
    ensures Run(ENGINE, GAP, NewWorld(GAP.before), done) == Some(b)
  {
  }

  lemma NoMail(b: World<()>, id: Session)
    requires WorldFits(GAP, b) && id !in b.procs
    ensures AnswersTo(b, id) == []
  {
    assert HeardFits(GAP, BooksOf(b), b.w.sent) by { MailOf(b); }
    hide WorldFits, Wins, Unheard, Answers;
    NoMessagesNoAnswers(b.calls, b.w.sent, id);
  }

  lemma OneAction(b: World<()>, a: Action)
    requires Enabled(GAP, b, a)
    ensures Run(ENGINE, GAP, b, [a]) == Some(Do(ENGINE, GAP, b, a))
  {
    hide Do, Enabled;
    assert [a][1..] == [];
    assert Run(ENGINE, GAP, Do(ENGINE, GAP, b, a), []) == Some(Do(ENGINE, GAP, b, a));
  }

  lemma ArriveStep(b: World<()>, id: Session, db: Schema) returns (b': World<()>)
    requires Quiet(b, db) && id !in b.procs && AnswersTo(b, id) == []
    ensures Run(ENGINE, GAP, b, [Arrive(id, true)]) == Some(b') && Alone(b', id, Creating, None, db)
    ensures b'.procs.Keys == b.procs.Keys + {id}
  {
    hide TicketsFit, Answers, Run;
    b' := Do(ENGINE, GAP, b, Arrive(id, true));
    TicketsStay(ENGINE, GAP, b, Arrive(id, true));
    AnswersGrow(b.calls, b.w.sent, Sent(b.tickets, id, Opened(true)), id);
    OneAction(b, Arrive(id, true));
    var w1 := b.w.(sessions := b.w.sessions[id := NewConn(ENGINE)], log := b.w.log + [Joined(id)],
                   sent := b.w.sent + [Sent(b.tickets, id, Opened(true))]);
    assert Pump(ENGINE, w1) == w1;
    hide Pump;
    assert b'.w == w1;
  }

  lemma MailOf(b: World<()>)
    requires WorldFits(GAP, b)
    ensures HeardFits(GAP, BooksOf(b), b.w.sent)
  {
  }

  /** The process commits, and its connection is lost before it hears so. */
  lemma LoseAnswer(done: seq<Action>, b: World<()>, id: Session, v: nat, tx: Schema, db: Schema)
    returns (done': seq<Action>, b': World<()>)
    requires Reached(done, b) && Alone(b, id, Committing(v), Some(tx), db)
    ensures Reached(done', b') && Quiet(b', tx) && b'.procs.Keys == b.procs.Keys && O.UnheardCommit(b', id)
  {
    hide AfterAnswer, Answers, Wanted, Handle, TicketsFit, Reached, Run;
    var answers := AnswersTo(b, id);
    var r := SendAlone(b, id, Committing(v), Some(tx), db);
    var b1 := Do(ENGINE, GAP, b, Send(id));
    assert AnswersTo(b1, id)[|answers|] == r;
    assert b1.w.sessions.Keys == {id};
    b' := LeaveAlone(b1, id, tx);
    done' := done + [Send(id), Leave(id, false)];
    TwoSteps(ENGINE, GAP, b, Send(id), Leave(id, false));
    hide Do;
    MoreReached(done, b, [Send(id), Leave(id, false)], b');
  }

  lemma LeaveAlone(b: World<()>, id: Session, db: Schema) returns (b': World<()>)
    requires b.w.sessions.Keys == {id} && b.w.db == db && b.w.pending == [] && b.w.holder == None && b.returned == []
             && TicketsFit(b)
    requires id in b.procs && b.procs[id].alive
    ensures b' == Do(ENGINE, GAP, b, Leave(id, false)) && Quiet(b', db)
    ensures b'.procs == b.procs[id := b.procs[id].(alive := false)] && AnswersTo(b', id) == AnswersTo(b, id)
  {
    b' := Do(ENGINE, GAP, b, Leave(id, false));
    TicketsStay(ENGINE, GAP, b, Leave(id, false));
    hide TicketsFit, Answers;
    assert b.w.sessions - {id} == map[];
    NoSuffix(b.w.sent);
    assert b'.w.sent == b.w.sent + [Sent(b.tickets, id, Dropped)];
    AnswersGrow(b.calls, b.w.sent, Sent(b.tickets, id, Dropped), id);
  }

  /** The first process gets as far as its script; the transaction sees the version missing. */
  lemma FirstHalf() returns (done: seq<Action>, b: World<()>, db: Schema)
    ensures Reached(done, b) && Alone(b, 0, Altering(1), Some(db), db) && b.procs.Keys == {0}
    ensures db == GAP.before.(ledger := true)
  {
    hide Reached, Alone, Run, TicketsFit, AnswersTo;
    var d := GAP.before;
    var b0: World<()> := NewWorld(d);
    Beginning();
    hide Quiet;
    done, b := ArriveAlone([], b0, 0, d);
    done, b := CallMore(done, b, 0, Creating, None, d);
    db := d.(ledger := true);
    done, b := CallMore(done, b, 0, Starting(1), None, db);
    done, b := CallMore(done, b, 0, Asking(1), Some(db), db);
    done, b := CallMore(done, b, 0, Counting(1), Some(db), db);
  }

  lemma Beginning()
    ensures Quiet(NewWorld(GAP.before), GAP.before) && Reached([], NewWorld(GAP.before))
  {
  }

  /** It gets as far as its COMMIT; the version's second part is not applied. */
  lemma FirstProcess() returns (done: seq<Action>, b: World<()>, tx: Schema, db: Schema)
    ensures Reached(done, b) && Alone(b, 0, Committing(1), Some(tx), db) && b.procs.Keys == {0}
    ensures 1 in tx.marks && tx.applied == GAP.before.applied
  {
    hide Reached, Alone, Run, TicketsFit, AnswersTo;
    done, b, db := FirstHalf();
    assert db.applied[(1, 0)] > 0;
    done, b := CallMore(done, b, 0, Altering(1), Some(db), db);
    done, b := CallMore(done, b, 0, Marking(1), Some(db), db);
    tx := db.(marks := db.marks + {1});
  }

  /** The next process finds the version in the ledger and finishes. */
  lemma SecondProcess(done0: seq<Action>, b0: World<()>, d: Schema)
    returns (done: seq<Action>, b: World<()>, db: Schema)
    requires Reached(done0, b0) && Quiet(b0, d) && b0.procs.Keys == {0} && 1 in d.marks
    ensures Reached(done, b) && Alone(b, 1, Finished, None, db) && db == d.(ledger := true)
  {
    hide Reached, Alone, Run, Quiet;
    done, b := ArriveAlone(done0, b0, 1, d);
    done, b := CallMore(done, b, 1, Creating, None, d);
    db := d.(ledger := true);
    done, b := CallMore(done, b, 1, Starting(1), None, db);
    done, b := CallMore(done, b, 1, Asking(1), Some(db), db);
    done, b := CallMore(done, b, 1, Counting(1), Some(db), db);
    done, b := CallMore(done, b, 1, Skipping(1), Some(db), db);
  }

  /** One run with both shortfalls. Every `migrate` call is over and a process has finished, but the
      calls have returned 0 in all, since the answer to the one COMMIT was lost; and the version is
      in the ledger without its second part, since its first was in effect before. */
  lemma BothShortfalls() returns (actions: seq<Action>)
    ensures Run(ENGINE, GAP, NewWorld(GAP.before), actions).Some?
    ensures var b := Run(ENGINE, GAP, NewWorld(GAP.before), actions).value;
            && O.SomeFinished(b) && b.w.sessions.Keys == {1} && 1 in b.procs && b.procs[1].pc == Finished
            && |O.Committed(GAP, b)| == 1 == |GAP.plan| && |b.returned| == 0 && (exists id :: O.UnheardCommit(b, id))
            && 1 in b.w.db.marks && b.w.db.applied[(1, 1)] == 0
  {
    var done1, b1, tx, db1 := FirstProcess();
    var done2, b2 := LoseAnswer(done1, b1, 0, 1, tx, db1);
    var done3, b3, db3 := SecondProcess(done2, b2, tx);
    actions := done3;
    IdealIsLawful(GAP.plan);
    assert b3.procs[1].pc == Finished;
    hide Run, Wins, AnswersTo, TicketsFit;
    assert O.SomeFinished(b3);
    O.ReturnsSumToVersions(ENGINE, GAP, actions);
  }
}
