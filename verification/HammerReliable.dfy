/** The load driver over an engine that fails a turn's statement only for a reason: no turn ever fails,
    and nobody waits except for a session that boots. */
module HammerReliable {
  import opened Prelude
  import opened Engine
  import opened Script
  import opened HammerBroker
  import opened HammerOrder
  import opened BrokerInvariants
  import opened Discipline
  import B = Broker
  import H = Hammer
  import A = HammerAudit

  /** A statement that turns consist of. */
  predicate InTurns(stmt: H.Stmt) {
    !stmt.Rollback? && !stmt.Pragma? && !stmt.Boot?
  }

  /** A statement of a turn without a reason to fail: Begin inside a transaction, Commit outside one, or
      a broken constraint. */
  predicate Permitted(stmt: H.Stmt, view: File, inTx: bool) {
    match stmt
    case Begin => !inTx
    case Commit => inTx
    case _ => InTurns(stmt) && !H.Conflicts(view, stmt)
  }

  /** Nothing is asked of the statements of a boot. */
  ghost predicate Reliable<L(!new)>(e: Engine<H.Stmt, L, File>) {
    && HammerEngine(e)
    && (forall c :: !e.nul(c))
    && (forall text: seq<H.Stmt>, local: L, view: File {:trigger e.compile(text, local, view)} ::
          text != [] && InTurns(text[0]) ==> !e.compile(text, local, view).Failed?)
    && (forall text: seq<H.Stmt>, binds: seq<Bind>, local: L, view: File, inTx: bool
          {:trigger e.run(text, binds, local, view, inTx)} ::
          text != [] && Permitted(text[0], view, inTx) ==> e.run(text, binds, local, view, inTx).error.None?)
  }

  // ---------- one script ----------

  lemma LoopSucceeds<L(!new)>(e: Engine<H.Stmt, L, File>, stmt: H.Stmt, rest: seq<H.Stmt>,
                              conn: Conn<L, File>, db: File, table: Table)
    returns (conn': Conn<L, File>, db': File, table': Table)
    requires Reliable(e) && Permitted(stmt, conn.View(db), conn.tx.Some?)
    ensures var o := Loop(e, [stmt] + rest, [], conn, db, false, table);
            && Took(stmt, conn, db, conn', db')
            && (if rest == [] then o.result.Ok? && o.conn == conn' && o.db == db'
                else var o' := Loop(e, rest, [], conn', db', false, table');
                     o.result == o'.result && o.conn == o'.conn && o.db == o'.db)
  {
    var text := [stmt] + rest;
    var t := OneTurn(e, text, [], conn, db, false, table);
    TurnTakes(e, text, conn, db, false, table);
    TurnSucceeds(e, text, conn, db, table);
    conn', db', table' := t.conn, t.db, t.table;
    hide OneTurn, Took, HammerEngine, Reliable, Permitted;
    assert text[1..] == rest;
  }

  lemma TurnSucceeds<L(!new)>(e: Engine<H.Stmt, L, File>, text: seq<H.Stmt>, conn: Conn<L, File>, db: File,
                       table: Table)
    requires Reliable(e) && text != [] && Permitted(text[0], conn.View(db), conn.tx.Some?)
    ensures var r := OneTurn(e, text, [], conn, db, false, table).result; r.Some? ==> r.value.Ok?
  {
    assert InTurns(text[0]);
    hide RowsOf, HasSql, Permitted;
    assert StepOf(e, text, [], conn, db).ran.error.None?;
    var _ := e.compile(text, conn.local, conn.View(db));
  }

  /** On a connection in autocommit a turn without a conflict succeeds. */
  lemma ScriptSucceeds<L(!new)>(e: Engine<H.Stmt, L, File>, op: H.Op, conn: Conn<L, File>, db: File)
    requires Reliable(e) && conn.tx.None?
    requires !op.Read? ==> !H.Conflicts(db, H.ItemStatement(op))
                           && !H.Conflicts(H.Changed(db, H.ItemStatement(op)), H.InsertEvent(H.EventOf(op)))
    ensures var x := Execute(e, H.OpScript(op), [], conn, db, false);
            x.response.fault.None? && x.conn.tx.None? && x.db == H.Apply(db, op)
  {
    ScriptIsAtomic(e, op, conn, db, false);
    if op.Read? {
      OneSucceeds(e, H.Select, conn, db);
    } else {
      WriteSucceeds(e, H.ItemStatement(op), H.InsertEvent(H.EventOf(op)), conn, db);
    }
  }

  lemma OneSucceeds<L(!new)>(e: Engine<H.Stmt, L, File>, stmt: H.Stmt, conn: Conn<L, File>, db: File)
    requires Reliable(e) && conn.tx.None? && stmt.Select?
    ensures var o := Loop(e, [stmt], [], conn, db, false, Table([], [])); o.result.Ok? && o.conn.tx.None?
  {
    hide Loop, HammerEngine, Reliable;
    NoSuffix([stmt]);
    var _, _, _ := LoopSucceeds(e, stmt, [], conn, db, Table([], []));
  }

  lemma WriteSucceeds<L(!new)>(e: Engine<H.Stmt, L, File>, a: H.Stmt, b: H.Stmt, conn: Conn<L, File>, db: File)
    requires Reliable(e) && !Quiet(a) && !Quiet(b) && conn.tx.None?
    requires !H.Conflicts(db, a) && !H.Conflicts(H.Changed(db, a), b)
    ensures Loop(e, [H.Begin, a, b, H.Commit], [], conn, db, false, Table([], [])).result.Ok?
  {
    hide Loop, HammerEngine, Reliable, H.Changed, H.Conflicts;
    var s4 := [H.Commit];
    var s3, s2, s1 := [b] + s4, [a] + ([b] + s4), [H.Begin] + ([a] + ([b] + s4));
    assert s1 == [H.Begin, a, b, H.Commit];
    var c1, d1, t1 := LoopSucceeds(e, H.Begin, s2, conn, db, Table([], []));
    var c2, d2, t2 := LoopSucceeds(e, a, s3, c1, d1, t1);
    var c3, d3, t3 := LoopSucceeds(e, b, s4, c2, d2, t2);
    NoSuffix(s4);
    var _, _, _ := LoopSucceeds(e, H.Commit, [], c3, d3, t3);
  }

  // ---------- the workers' jobs ----------

  /** Sessions have one request outstanding and ask for a turn only outside a transaction of their own. */
  ghost predicate Polite<L>(e: Engine<H.Stmt, L, File>, turns: Turns, w: B.W<H.Stmt, L, File>,
                            jobs: seq<B.Job<H.Stmt>>)
    decreases |jobs|
  {
    jobs == [] || (PoliteJob(turns, w, jobs[0]) && Polite(e, turns, B.Handle(e, w, jobs[0]), jobs[1..]))
  }

  ghost predicate PoliteJob<L>(turns: Turns, w: B.W<H.Stmt, L, File>, job: B.Job<H.Stmt>) {
    Admissible(w, job) && (AskedTurn(turns, job) != [] ==> w.holder != Some(job.id))
  }

  /** The turn a queued request asks for. */
  function TurnOf(turns: Turns, p: B.Pending<H.Stmt>): seq<H.Op> {
    if turns(p.reply).Some? then [turns(p.reply).value] else []
  }

  /** The turns that wait, oldest first. */
  function Queued(turns: Turns, pending: seq<B.Pending<H.Stmt>>): seq<H.Op> {
    if pending == [] then [] else TurnOf(turns, pending[0]) + Queued(turns, pending[1..])
  }

  lemma {:induction false} QueuedGrows(turns: Turns, pending: seq<B.Pending<H.Stmt>>, p: B.Pending<H.Stmt>)
    ensures Queued(turns, pending + [p]) == Queued(turns, pending) + TurnOf(turns, p)
  {
    hide TurnOf;
    if pending == [] {
      assert [p][1..] == [] && [] + [p] == [p];
      NoSuffix(TurnOf(turns, p));
      NoPrefix(TurnOf(turns, p));
    } else {
      AppendParts(pending, [p]);
      QueuedGrows(turns, pending[1..], p);
      Assoc(TurnOf(turns, pending[0]), Queued(turns, pending[1..]), TurnOf(turns, p));
    }
  }

  /** An answer to a turn that succeeded and left its session in autocommit, or no answer to a turn. */
  predicate Succeeds(turns: Turns, m: B.Sent) {
    m.message.Replied? && turns(m.reply).Some? ==>
      m.message.response.fault.None? && m.message.response.autocommit
  }

  ghost predicate TurnsSucceed(turns: Turns, sent: seq<B.Sent>) {
    forall i | 0 <= i < |sent| :: Succeeds(turns, sent[i])
  }

  /** Every turn answered so far succeeded, and the turns asked for are those answered and then those
      queued. */
  ghost predicate Calm<L>(turns: Turns, asked: seq<H.Op>, w: B.W<H.Stmt, L, File>) {
    && Follows(turns, H.EMPTY, w) && TurnsSucceed(turns, w.sent)
    && Answered(turns, w.sent) + Queued(turns, w.pending) == asked
  }

  lemma NobodyFailed(turns: Turns, sent: seq<B.Sent>, id: B.Session)
    requires TurnsSucceed(turns, sent)
    ensures !TurnFailed(turns, sent, id)
  {
    forall i | 0 <= i < |sent| ensures !FailsTurn(turns, sent[i]) {
      assert Succeeds(turns, sent[i]);
    }
  }

  // ---------- one request ----------

  /** The next turn, on a live session outside a transaction, succeeds. */
  lemma TurnIsServed<L(!new)>(e: Engine<H.Stmt, L, File>, turns: Turns, done: seq<H.Op>, w: B.W<H.Stmt, L, File>,
                              p: B.Pending<H.Stmt>, held: bool)
    requires Reliable(e) && Core(w) && MayRun(w, p.id) && p.id in w.sessions && w.holder != Some(p.id)
    requires p.req.Exec? && RequestFits(turns, p.req, p.reply) && turns(p.reply).Some?
    requires w.db == H.ApplyAll(H.EMPTY, done) && A.Interleaves(done + [turns(p.reply).value])
    ensures var w' := B.RunExec(e, w, p, held);
            |w'.sent| == |w.sent| + 1 && w'.sent[|w.sent|].message.Replied? && Succeeds(turns, w'.sent[|w.sent|])
  {
    NoOtherLock(w, p.id);
    var conn, op := w.sessions[p.id], turns(p.reply).value;
    assert conn.tx.None?;
    hide Reliable, HammerEngine, H.ApplyAll, A.Interleaves, Execute, H.OpScript, H.Apply, Core, H.Conflicts, H.Changed;
    if !op.Read? {
      A.NoConflict(done, op);
    }
    ScriptSucceeds(e, op, conn, w.db);
    var x := Execute(e, p.req.sql, [], conn, w.db, false);
    assert x.response.autocommit by { AnswerTells(e, p.req.sql, conn, w.db); }
  }

  lemma AnswerTells<L>(e: Engine<H.Stmt, L, File>, sql: seq<H.Stmt>, conn: Conn<L, File>, db: File)
    ensures var x := Execute(e, sql, [], conn, db, false); x.response.autocommit <==> x.conn.tx.None?
  {
    hide RunScript;
  }

  /** What a dispatched request does to the order of turns. */
  lemma OrderMoves(turns: Turns, sent: seq<B.Sent>, pending: seq<B.Pending<H.Stmt>>, p: B.Pending<H.Stmt>, m: B.Sent,
                   asked: seq<H.Op>)
    requires Answered(turns, sent) + (TurnOf(turns, p) + Queued(turns, pending)) == asked
    requires m.reply == p.reply && m.message.Replied? && Succeeds(turns, m)
    ensures Answered(turns, sent + [m]) + Queued(turns, pending) == asked
  {
    AnsweredGrows(turns, sent, m);
    hide Answered, Queued;
    Assoc(Answered(turns, sent), TurnOf(turns, p), Queued(turns, pending));
  }

  lemma DispatchCalms<L(!new)>(e: Engine<H.Stmt, L, File>, turns: Turns, asked: seq<H.Op>, w: B.W<H.Stmt, L, File>,
                               p: B.Pending<H.Stmt>, held: bool)
    requires Reliable(e) && Core(w) && MayRun(w, p.id) && p.id in w.sessions && !p.req.Close?
    requires RequestFits(turns, p.req, p.reply) && forall i | 0 <= i < |w.pending| :: w.pending[i].id != p.id
    requires turns(p.reply).Some? ==> w.holder != Some(p.id)
    requires Follows(turns, H.EMPTY, w) && TurnsSucceed(turns, w.sent)
    requires Answered(turns, w.sent) + (TurnOf(turns, p) + Queued(turns, w.pending)) == asked && A.Interleaves(asked)
    ensures Calm(turns, asked, B.Dispatch(e, w, p, held))
  {
    hide Reliable, HammerEngine, Follows, Core, Answered, Queued, B.RunExec, A.Interleaves, RequestFits, TurnFailed;
    var w', done := B.Dispatch(e, w, p, held), Answered(turns, w.sent);
    NobodyFailed(turns, w.sent, p.id);
    ReliableIsLawful(e);
    DispatchFollows(e, turns, H.EMPTY, w, p, held);
    OneAnswer(e, w, p, held);
    DispatchAnswers(e, w, p, held);
    if turns(p.reply).Some? {
      assert p.req.Exec? by { TurnsAreExecs(turns, p); }
      var op := turns(p.reply).value;
      Assoc(done, [op], Queued(turns, w.pending));
      InterleavesPrefix(done + [op], Queued(turns, w.pending));
      FoldOf(turns, w);
      TurnIsServed(e, turns, done, w, p, held);
    }
    hide B.Dispatch;
    OrderMoves(turns, w.sent, w.pending, p, w'.sent[|w.sent|], asked);
  }

  lemma FoldOf<L>(turns: Turns, w: B.W<H.Stmt, L, File>)
    requires Follows(turns, H.EMPTY, w)
    ensures w.db == H.ApplyAll(H.EMPTY, Answered(turns, w.sent))
  {
  }

  lemma TurnsAreExecs(turns: Turns, p: B.Pending<H.Stmt>)
    requires RequestFits(turns, p.req, p.reply) && turns(p.reply).Some?
    ensures p.req.Exec?
  {
  }

  lemma ReliableIsLawful<L(!new)>(e: Engine<H.Stmt, L, File>)
    requires Reliable(e)
    ensures HammerEngine(e)
  {
  }

  // ---------- runs ----------

  lemma {:induction false} PumpCalms<L(!new)>(e: Engine<H.Stmt, L, File>, turns: Turns, asked: seq<H.Op>,
                                              w: B.W<H.Stmt, L, File>)
    requires Reliable(e) && Core(w) && Disciplined(w) && Calm(turns, asked, w) && A.Interleaves(asked)
    ensures Calm(turns, asked, B.Pump(e, w))
    decreases |w.pending|
  {
    hide Reliable, B.Dispatch, Follows, Answered, A.Interleaves, TurnsSucceed;
    if w.holder.None? && w.pending != [] {
      var p, rest := w.pending[0], w.(pending := w.pending[1..]);
      PopFollows(turns, H.EMPTY, w);
      assert RequestFits(turns, p.req, p.reply);
      DispatchCalms(e, turns, asked, rest, p, false);
      DispatchAnswers(e, rest, p, false);
      DispatchKeepsCore(e, rest, p, false);
      PumpCalms(e, turns, asked, B.Dispatch(e, rest, p, false));
    }
  }

  /** A message that answers no turn. */
  lemma NoticeCalms<L>(turns: Turns, asked: seq<H.Op>, w: B.W<H.Stmt, L, File>, w': B.W<H.Stmt, L, File>, m: B.Sent)
    requires TurnsSucceed(turns, w.sent) && Answered(turns, w.sent) + Queued(turns, w.pending) == asked
    requires m.message.Replied? ==> turns(m.reply).None?
    requires w'.sent == w.sent + [m] && w'.pending == w.pending
    ensures TurnsSucceed(turns, w'.sent) && Answered(turns, w'.sent) + Queued(turns, w'.pending) == asked
  {
    AnsweredGrows(turns, w.sent, m);
    NoSuffix(Answered(turns, w.sent));
    hide Answered, Queued;
  }

  lemma ActCalms<L(!new)>(e: Engine<H.Stmt, L, File>, turns: Turns, asked: seq<H.Op>, w: B.W<H.Stmt, L, File>,
                          job: B.Job<H.Stmt>)
    requires Reliable(e) && Inv(w) && Disciplined(w) && Calm(turns, asked, w) && JobFits(turns, job)
    requires PoliteJob(turns, w, job) && !B.Waits(w, job) && A.Interleaves(asked + AskedTurn(turns, job))
    ensures Calm(turns, asked + AskedTurn(turns, job), B.Act(e, w, job))
  {
    hide Reliable, B.Dispatch, Follows, Answered, A.Interleaves, TurnsSucceed, TurnFailed, RequestFits, Queued;
    NobodyFailed(turns, w.sent, job.id);
    ReliableIsLawful(e);
    NoSuffix(asked);
    if job.Req? && !job.req.Close? {
      var p := B.Pending(job.id, job.req, job.reply);
      JoinsOrder(turns, asked, w, job);
      DispatchCalms(e, turns, asked + AskedTurn(turns, job), w, p, w.holder == Some(job.id));
    } else {
      ActFollows(e, turns, H.EMPTY, w, job);
      NobodyRefused(w.pending, job.id);
      ActAnswers(e, w, job);
      var m := B.Act(e, w, job).sent[|w.sent|];
      assert m.message.Replied? ==> turns(m.reply).None? by { hide Inv; CloseAsksNothing(turns, job); }
      NoticeCalms(turns, asked, w, B.Act(e, w, job), m);
      NoTurnAsked(turns, job);
    }
  }

  lemma CloseAsksNothing(turns: Turns, job: B.Job<H.Stmt>)
    requires JobFits(turns, job)
    ensures job.Req? && job.req.Close? ==> turns(job.reply).None?
  {
  }

  lemma NoTurnAsked(turns: Turns, job: B.Job<H.Stmt>)
    requires !job.Req? || job.req.Close?
    ensures AskedTurn(turns, job) == []
  {
  }

  /** A turn that does not wait finds the queue empty. */
  lemma JoinsOrder<L>(turns: Turns, asked: seq<H.Op>, w: B.W<H.Stmt, L, File>, job: B.Job<H.Stmt>)
    requires Inv(w) && JobFits(turns, job) && PoliteJob(turns, w, job) && !B.Waits(w, job)
    requires job.Req? && !job.req.Close?
    requires Answered(turns, w.sent) + Queued(turns, w.pending) == asked
    ensures var p := B.Pending(job.id, job.req, job.reply);
            && Answered(turns, w.sent) + (TurnOf(turns, p) + Queued(turns, w.pending)) == asked + AskedTurn(turns, job)
            && RequestFits(turns, p.req, p.reply) && MayRun(w, p.id) && p.id in w.sessions
            && (turns(p.reply).Some? ==> w.holder != Some(p.id))
            && forall i | 0 <= i < |w.pending| :: w.pending[i].id != p.id
  {
    hide Answered;
    var p, done := B.Pending(job.id, job.req, job.reply), Answered(turns, w.sent);
    assert TurnOf(turns, p) == AskedTurn(turns, job);
    if TurnOf(turns, p) == [] {
      NoPrefix(Queued(turns, w.pending));
      NoSuffix(asked);
    } else {
      assert w.pending == [];
      NoSuffix(done);
      NoSuffix(TurnOf(turns, p));
    }
  }

  lemma EnqueueCalms<L>(turns: Turns, asked: seq<H.Op>, w: B.W<H.Stmt, L, File>, job: B.Job<H.Stmt>)
    requires Calm(turns, asked, w) && JobFits(turns, job) && B.Waits(w, job)
    ensures Calm(turns, asked + AskedTurn(turns, job), B.Enqueue(w, job))
  {
    var p := B.Pending(job.id, job.req, job.reply);
    NobodyFailed(turns, w.sent, job.id);
    QueuedGrows(turns, w.pending, p);
    assert TurnOf(turns, p) == AskedTurn(turns, job);
    hide Follows, Answered, Queued, TurnFailed, TurnsSucceed;
    Assoc(Answered(turns, w.sent), Queued(turns, w.pending), TurnOf(turns, p));
    EnqueueFollows(turns, H.EMPTY, w, job);
  }

  lemma HandleCalms<L(!new)>(e: Engine<H.Stmt, L, File>, turns: Turns, asked: seq<H.Op>, w: B.W<H.Stmt, L, File>,
                             job: B.Job<H.Stmt>)
    requires Reliable(e) && Inv(w) && Disciplined(w) && Calm(turns, asked, w) && JobFits(turns, job)
    requires PoliteJob(turns, w, job) && A.Interleaves(asked + AskedTurn(turns, job))
    ensures var w' := B.Handle(e, w, job); Calm(turns, asked + AskedTurn(turns, job), w') && Inv(w') && Disciplined(w')
  {
    HandleKeepsInv(e, w, job);
    HandleIsOrderly(e, w, job);
    hide Reliable, Calm, B.Act, B.Pump, A.Interleaves, AskedTurn, B.Enqueue;
    if B.Waits(w, job) {
      EnqueueCalms(turns, asked, w, job);
    } else {
      ActCalms(e, turns, asked, w, job);
      ActAnswers(e, w, job);
      PumpCalms(e, turns, asked + AskedTurn(turns, job), B.Act(e, w, job));
    }
  }

  lemma {:induction false} InterleavesPrefix(a: seq<H.Op>, b: seq<H.Op>)
    requires A.Interleaves(a + b)
    ensures A.Interleaves(a)
    decreases |b|
  {
    hide A.Interleaves;
    if b == [] {
      NoSuffix(a);
    } else {
      A.InterleavesFront(a + b);
      assert (a + b)[..|a + b| - 1] == a + b[..|b| - 1];
      InterleavesPrefix(a, b[..|b| - 1]);
    }
  }

  lemma {:induction false} JobsCalm<L(!new)>(e: Engine<H.Stmt, L, File>, turns: Turns, asked: seq<H.Op>,
                                             w: B.W<H.Stmt, L, File>, jobs: seq<B.Job<H.Stmt>>)
    requires Reliable(e) && Inv(w) && Disciplined(w) && Calm(turns, asked, w) && Polite(e, turns, w, jobs)
    requires forall i | 0 <= i < |jobs| :: JobFits(turns, jobs[i])
    requires A.Interleaves(asked + Asked(turns, jobs))
    ensures var w' := B.RunJobs(e, w, jobs); Calm(turns, asked + Asked(turns, jobs), w') && Inv(w')
    decreases |jobs|
  {
    hide Reliable, Calm, A.Interleaves, B.Handle, JobFits, Inv, Disciplined, AskedTurn, PoliteJob;
    if jobs == [] {
      NoSuffix(asked);
    } else {
      var turn, rest := AskedTurn(turns, jobs[0]), Asked(turns, jobs[1..]);
      Assoc(asked, turn, rest);
      InterleavesPrefix(asked + turn, rest);
      HandleCalms(e, turns, asked, w, jobs[0]);
      JobsCalm(e, turns, asked + turn, B.Handle(e, w, jobs[0]), jobs[1..]);
    }
  }

  lemma StartIsCalm<L>(turns: Turns)
    ensures Calm<L>(turns, [], B.Start(H.EMPTY))
  {
  }

  /** What the storm comes to: every turn answered succeeded and left its session in autocommit; the
      turns asked for are those answered and then those queued, in this order; somebody waits only
      while a session holds a transaction that no turn left open, and its working copy is the file; and
      the file passes the audit of every worker's answered turns. */
  ghost predicate Weathered<L>(turns: Turns, asked: seq<H.Op>, w: B.W<H.Stmt, L, File>) {
    var answered := Answered(turns, w.sent);
    && TurnsSucceed(turns, w.sent) && answered + Queued(turns, w.pending) == asked
    && (w.pending != [] ==> w.holder.Some?)
    && (w.holder.Some? ==> w.holder.value in w.sessions && w.sessions[w.holder.value].tx == Some(w.db))
    && w.db == H.ApplyAll(H.EMPTY, answered)
    && forall worker: nat | H.ClaimOf(worker, A.Projection(answered, worker)).Writes() > 0 ::
         H.Audited(w.db, H.ClaimOf(worker, A.Projection(answered, worker)))
  }

  lemma CalmIsWeathered<L>(turns: Turns, asked: seq<H.Op>, w: B.W<H.Stmt, L, File>)
    requires Calm(turns, asked, w) && Inv(w) && A.Interleaves(asked)
    ensures Weathered(turns, asked, w)
  {
    var answered := Answered(turns, w.sent);
    FoldOf(turns, w);
    InterleavesPrefix(answered, Queued(turns, w.pending));
    if w.holder.Some? {
      var h := w.holder.value;
      NobodyFailed(turns, w.sent, h);
      assert AtFile(w.sessions[h], w.db) || TurnFailed(turns, w.sent, h);
    }
    hide A.Interleaves, Answered, Queued, H.ApplyAll, H.ClaimOf, A.Projection, H.Audited, QueueFits, Clean, TurnFailed;
    forall worker: nat | H.ClaimOf(worker, A.Projection(answered, worker)).Writes() > 0
      ensures H.Audited(w.db, H.ClaimOf(worker, A.Projection(answered, worker)))
    {
      A.AuditPasses(answered, worker);
    }
  }

  /** For any number of workers that boot in transactions of several calls, with any failures there,
      and then send the turns of their loops in order, in any interleaving with each other and with
      sessions opened and closed: no turn fails, nobody waits but for a session that boots, and the
      file passes the audit of every worker. */
  lemma StormSucceeds<L(!new)>(e: Engine<H.Stmt, L, File>, turns: Turns, jobs: seq<B.Job<H.Stmt>>)
    requires Reliable(e) && Polite(e, turns, B.Start(H.EMPTY), jobs)
    requires forall i | 0 <= i < |jobs| :: JobFits(turns, jobs[i])
    requires A.Interleaves(Asked(turns, jobs))
    ensures Weathered(turns, Asked(turns, jobs), B.RunJobs(e, B.Start(H.EMPTY), jobs))
    ensures var w := B.RunJobs(e, B.Start(H.EMPTY), jobs);
            w.holder.None? ==> w.pending == [] && Answered(turns, w.sent) == Asked(turns, jobs)
  {
    var w: B.W<H.Stmt, L, File> := B.Start(H.EMPTY);
    StartIsCalm<L>(turns);
    StartFollows<L>(turns, H.EMPTY);
    NoPrefix(Asked(turns, jobs));
    hide Reliable, A.Interleaves, B.RunJobs, JobFits, Asked, Polite, Calm, Weathered, Inv, Disciplined;
    JobsCalm(e, turns, [], w, jobs);
    CalmIsWeathered(turns, Asked(turns, jobs), B.RunJobs(e, w, jobs));
    if B.RunJobs(e, w, jobs).holder.None? {
      NobodyWaits(turns, Asked(turns, jobs), B.RunJobs(e, w, jobs));
    }
  }

  lemma NobodyWaits<L>(turns: Turns, asked: seq<H.Op>, w: B.W<H.Stmt, L, File>)
    requires Weathered(turns, asked, w) && w.holder.None?
    ensures w.pending == [] && Answered(turns, w.sent) == asked
  {
    NoSuffix(Answered(turns, w.sent));
  }

  // ---------- an engine that keeps the promises ----------

  function IdealRun(stmt: H.Stmt, view: File, inTx: bool): Ran<(), File> {
    var end := if inTx then KeepOpen else Publish;
    match stmt
    case Begin => if inTx then Ran([], Some(1), (), view, KeepOpen) else Ran([], None, (), view, KeepOpen)
    case Commit => if inTx then Ran([], None, (), view, Publish) else Ran([], Some(1), (), view, Discard)
    case Rollback => Ran([], if inTx then None else Some(1), (), view, Discard)
    case _ =>
      if H.Conflicts(view, stmt) then Ran([], Some(19), (), view, if inTx then KeepOpen else Discard)
      else Ran([], None, (), H.Changed(view, stmt), end)
  }

  const IDEAL_ENGINE: Engine<H.Stmt, (), File> := Engine(
    (), _ => false, _ => false,
    (text, _, _) => if text == [] then Nothing(None) else Statement(Some(1), []),
    (_, _) => true,
    (text, _, _, view, inTx) => if text == [] then Ran([], Some(1), (), view, Discard)
        else IdealRun(text[0], view, inTx),
    _ => ZERO_COUNTERS)

  lemma IdealEngineIsReliable()
    ensures Reliable(IDEAL_ENGINE)
  {
    hide H.Conflicts, H.Changed;
  }
}
