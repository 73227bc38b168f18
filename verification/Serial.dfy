/** The broker's many connections refine one sequential database with at most one transaction. */
module Serial {
  import opened Prelude
  import opened Engine
  import opened Script
  import opened Broker
  import opened BrokerInvariants

  // ---------- the sequential database ----------

  /** One database, at most one open transaction with its owner and working copy, and the private
      state of every session. */
  datatype Serial<L, D> = Serial(db: D, open: Option<(Session, D)>, locals: map<Session, L>) {
    function View(): D {
      if open.Some? then open.value.1 else db
    }

    predicate Admits(id: Session) {
      id in locals && (open.Some? ==> open.value.0 == id)
    }
  }

  function Fresh<L, D>(db: D): Serial<L, D> {
    Serial(db, None, map[])
  }

  /** What the sequential database accepts next. A statement must come from the transaction's
      owner if there is one, and must do exactly what the engine does on this database. */
  ghost predicate Accepts<C, L, D>(e: Engine<C, L, D>, s: Serial<L, D>, ev: Event<C, L, D>) {
    match ev
    case Joined(id) => id !in s.locals
    case Stepped(id, step) =>
      && s.Admits(id) && step.local == s.locals[id] && step.inTx == s.open.Some?
      && step.ran == e.run(step.text, step.binds, step.local, s.View(), step.inTx)
    case Inspected(id) => s.Admits(id)
    case Left(id) => id in s.locals
  }

  function Next<C, L, D>(e: Engine<C, L, D>, s: Serial<L, D>, ev: Event<C, L, D>): Serial<L, D> {
    match ev
    case Joined(id) => s.(locals := s.locals[id := e.start])
    case Stepped(id, step) =>
      var locals' := s.locals[id := step.ran.local];
      (match step.ran.end
       case KeepOpen => Serial(s.db, Some((id, step.ran.view)), locals')
       case Publish => Serial(step.ran.view, None, locals')
       case Discard => Serial(s.db, None, locals'))
    case Inspected(id) => s
    case Left(id) => Serial(s.db, if s.open.Some? && s.open.value.0 == id then None else s.open, s.locals - {id})
  }

  function Replay<C, L, D>(e: Engine<C, L, D>, s: Serial<L, D>, log: seq<Event<C, L, D>>): Serial<L, D>
    decreases |log|
  {
    if log == [] then s else Replay(e, Next(e, s, log[0]), log[1..])
  }

  ghost predicate Legal<C, L, D>(e: Engine<C, L, D>, s: Serial<L, D>, log: seq<Event<C, L, D>>)
    decreases |log|
  {
    log == [] || (Accepts(e, s, log[0]) && Legal(e, Next(e, s, log[0]), log[1..]))
  }

  lemma {:induction false} ReplayAppend<C, L, D>(e: Engine<C, L, D>, s: Serial<L, D>,
                                                 a: seq<Event<C, L, D>>, b: seq<Event<C, L, D>>)
    ensures Replay(e, s, a + b) == Replay(e, Replay(e, s, a), b)
    ensures Legal(e, s, a + b) <==> Legal(e, s, a) && Legal(e, Replay(e, s, a), b)
    decreases |a|
  {
    hide Next, Accepts;
    if a == [] {
      NoPrefix(b);
    } else {
      AppendParts(a, b);
      ReplayAppend(e, Next(e, s, a[0]), a[1..], b);
    }
  }

  lemma ReplayOne<C, L, D>(e: Engine<C, L, D>, s: Serial<L, D>, ev: Event<C, L, D>)
    ensures Replay(e, s, [ev]) == Next(e, s, ev) && (Legal(e, s, [ev]) <==> Accepts(e, s, ev))
  {
    assert [ev][1..] == [];
  }

  // ---------- one script on one connection ----------

  /** `s` agrees with a connection of `id` and with the committed database. */
  ghost predicate Agrees<L, D>(s: Serial<L, D>, id: Session, conn: Conn<L, D>, db: D) {
    && s.db == db && id in s.locals && s.locals[id] == conn.local
    && s.open == if conn.tx.Some? then Some((id, conn.tx.value)) else None
  }

  lemma {:induction false} LoopReplays<C, L, D>(e: Engine<C, L, D>, id: Session, text: seq<C>, params: seq<Param>,
                                                conn: Conn<L, D>, db: D, busy: bool, table: Table, s: Serial<L, D>)
    requires Agrees(s, id, conn, db)
    ensures var o := Loop(e, text, params, conn, db, busy, table);
            var log := EventsOf(id, o.steps);
            && Legal(e, s, log) && Agrees(Replay(e, s, log), id, o.conn, o.db)
            && Replay(e, s, log).locals == s.locals[id := o.conn.local]
    decreases |text|
  {
    var t := OneTurn(e, text, params, conn, db, busy, table);
    TurnReplays(e, id, text, params, conn, db, busy, table, s);
    hide OneTurn, Agrees, Next, Accepts, Legal, Replay, EventsOf;
    if t.result.None? {
      var s' := Replay(e, s, EventsOf(id, t.steps));
      LoopReplays(e, id, text[t.next..], params, t.conn, t.db, busy, t.table, s');
      var o := Loop(e, text[t.next..], params, t.conn, t.db, busy, t.table);
      EventsAppend(id, t.steps, o.steps);
      ReplayAppend(e, s, EventsOf(id, t.steps), EventsOf(id, o.steps));
    }
  }

  lemma TurnReplays<C, L, D>(e: Engine<C, L, D>, id: Session, text: seq<C>, params: seq<Param>,
                             conn: Conn<L, D>, db: D, busy: bool, table: Table, s: Serial<L, D>)
    requires Agrees(s, id, conn, db)
    ensures var t := OneTurn(e, text, params, conn, db, busy, table);
            var log := EventsOf(id, t.steps);
            && Legal(e, s, log) && Agrees(Replay(e, s, log), id, t.conn, t.db)
            && Replay(e, s, log).locals == s.locals[id := t.conn.local]
  {
    var t := OneTurn(e, text, params, conn, db, busy, table);
    if t.steps != [] {
      var step := t.steps[0];
      assert t.steps == [step] && EventsOf(id, t.steps) == [Stepped(id, step)];
      ReplayOne(e, s, Stepped(id, step));
    } else {
      assert s.locals[id := conn.local] == s.locals;
    }
  }

  lemma EventsAppend<C, L, D>(id: Session, a: seq<Step<C, L, D>>, b: seq<Step<C, L, D>>)
    ensures EventsOf(id, a + b) == EventsOf(id, a) + EventsOf(id, b)
  {
    hide EventsOf;
    forall i | 0 <= i < |a + b| ensures EventsOf(id, a + b)[i] == (EventsOf(id, a) + EventsOf(id, b))[i] {
      if i < |a| {
        assert (a + b)[i] == a[i];
      } else {
        assert (a + b)[i] == b[i - |a|];
      }
    }
  }

  // ---------- the refinement ----------

  /** The sequential database a broker state stands for. */
  ghost function Abs<C, L, D>(w: W<C, L, D>): Serial<L, D>
    requires Core(w)
  {
    Serial(w.db,
           if w.holder.Some? then Some((w.holder.value, w.sessions[w.holder.value].tx.value)) else None,
           map id | id in w.sessions :: w.sessions[id].local)
  }

  /** The broker's log is a run of the sequential database from `s0`, and ends where the broker is. */
  ghost predicate Refines<C, L, D>(e: Engine<C, L, D>, s0: Serial<L, D>, w: W<C, L, D>) {
    Core(w) && Legal(e, s0, w.log) && Replay(e, s0, w.log) == Abs(w)
  }

  lemma InspectionReplays<C, L, D>(e: Engine<C, L, D>, s0: Serial<L, D>, w: W<C, L, D>, id: Session)
    requires Refines(e, s0, w) && MayRun(w, id) && id in w.sessions
    ensures Legal(e, s0, w.log + [Inspected(id)]) && Replay(e, s0, w.log + [Inspected(id)]) == Abs(w)
  {
    ReplayAppend(e, s0, w.log, [Inspected(id)]);
    ReplayOne(e, Abs(w), Inspected(id));
    hide Legal, Replay;
  }

  lemma ExecRefines<C, L, D>(e: Engine<C, L, D>, s0: Serial<L, D>, w: W<C, L, D>, p: Pending<C>, held: bool)
    requires Refines(e, s0, w) && MayRun(w, p.id) && p.req.Exec?
    ensures Refines(e, s0, RunExec(e, w, p, held))
  {
    hide Legal, Replay, Execute;
    DispatchKeepsCore(e, w, p, held);
    NoOtherLock(w, p.id);
    if p.id in w.sessions {
      var x := Execute(e, p.req.sql, p.req.params, w.sessions[p.id], w.db, false);
      AbsAgrees(w, p.id);
      ExecuteReplays(e, p.id, p.req.sql, p.req.params, w.sessions[p.id], w.db, Abs(w));
      InspectionReplays(e, s0, w, p.id);
      ReplayAppend(e, s0, w.log + [Inspected(p.id)], EventsOf(p.id, x.steps));
      hide EventsOf, Core;
      AbsAfter(w, RunExec(e, w, p, held), p.id, Replay(e, Abs(w), EventsOf(p.id, x.steps)));
    }
  }

  lemma AbsAgrees<C, L, D>(w: W<C, L, D>, id: Session)
    requires Core(w) && MayRun(w, id) && id in w.sessions
    ensures Agrees(Abs(w), id, w.sessions[id], w.db)
  {
  }

  /** A state that agrees with the moved connection, and has the others' private states, is the one
      the broker stands for. */
  lemma AbsAfter<C, L, D>(w: W<C, L, D>, w': W<C, L, D>, id: Session, s: Serial<L, D>)
    requires Core(w) && Core(w') && id in w.sessions && id in w'.sessions
             && w'.sessions == w.sessions[id := w'.sessions[id]]
    requires (w'.holder.None? || w'.holder == Some(id))
    requires Agrees(s, id, w'.sessions[id], w'.db) && s.locals == Abs(w).locals[id := w'.sessions[id].local]
    ensures s == Abs(w')
  {
    assert s.locals == Abs(w').locals;
  }

  lemma ExecuteReplays<C, L, D>(e: Engine<C, L, D>, id: Session, sql: seq<C>, params: seq<Param>,
                                conn: Conn<L, D>, db: D, s: Serial<L, D>)
    requires Agrees(s, id, conn, db)
    ensures var x := Execute(e, sql, params, conn, db, false);
            var log := EventsOf(id, x.steps);
            && Legal(e, s, log) && Agrees(Replay(e, s, log), id, x.conn, x.db)
            && Replay(e, s, log).locals == s.locals[id := x.conn.local]
            && x.response.autocommit == x.conn.tx.None?
  {
    if HasNul(e, sql) {
      assert s.locals[id := conn.local] == s.locals;
    } else {
      LoopReplays(e, id, sql, params, conn, db, false, Table([], []), s);
    }
  }

  lemma DispatchRefines<C, L, D>(e: Engine<C, L, D>, s0: Serial<L, D>, w: W<C, L, D>, p: Pending<C>, held: bool)
    requires Refines(e, s0, w) && MayRun(w, p.id) && !p.req.Close?
    ensures Refines(e, s0, Dispatch(e, w, p, held))
  {
    if p.req.Exec? {
      ExecRefines(e, s0, w, p, held);
    } else {
      DispatchKeepsCore(e, w, p, held);
      if p.id in w.sessions {
        InspectionReplays(e, s0, w, p.id);
      }
    }
  }

  lemma DropRefines<C, L, D>(e: Engine<C, L, D>, s0: Serial<L, D>, w: W<C, L, D>, id: Session)
    requires Refines(e, s0, w)
    ensures Refines(e, s0, DropSession(w, id))
  {
    DropKeepsCore(w, id);
    var w' := DropSession(w, id);
    if id in w.sessions {
      ReplayAppend(e, s0, w.log, [Left(id)]);
      ReplayOne(e, Abs(w), Left(id));
      assert Abs(w').locals == Abs(w).locals - {id};
    } else {
      assert w'.sessions == w.sessions;
    }
  }

  lemma {:induction false} PumpRefines<C, L, D>(e: Engine<C, L, D>, s0: Serial<L, D>, w: W<C, L, D>)
    requires Refines(e, s0, w)
    ensures Refines(e, s0, Pump(e, w))
    decreases |w.pending|
  {
    hide Legal, Replay, Dispatch;
    if w.holder.None? && w.pending != [] {
      var p, rest := w.pending[0], w.(pending := w.pending[1..]);
      DispatchShrinksQueue(e, rest, p, false);
      DispatchRefines(e, s0, rest, p, false);
      PumpRefines(e, s0, Dispatch(e, rest, p, false));
    }
  }

  lemma JoinRefines<C, L, D>(e: Engine<C, L, D>, s0: Serial<L, D>, w: W<C, L, D>, job: Job<C>)
    requires Refines(e, s0, w) && Inv(w) && job.Open? && OpensFresh(w, job)
    ensures Refines(e, s0, Act(e, w, job))
  {
    ActKeepsCore(e, w, job);
    if job.opens {
      ReplayAppend(e, s0, w.log, [Joined(job.id)]);
      ReplayOne(e, Abs(w), Joined(job.id));
      assert Abs(Act(e, w, job)).locals == Abs(w).locals[job.id := e.start];
    }
  }

  lemma HandleRefines<C, L, D>(e: Engine<C, L, D>, s0: Serial<L, D>, w: W<C, L, D>, job: Job<C>)
    requires Refines(e, s0, w) && Inv(w) && OpensFresh(w, job)
    ensures Refines(e, s0, Handle(e, w, job))
  {
    HandleKeepsInv(e, w, job);
    hide Legal, Replay;
    if !Waits(w, job) {
      match job {
        case Open(id, reply, opens) => JoinRefines(e, s0, w, job);
        case Drop(id, reply) => DropRefines(e, s0, w, id);
        case Req(id, req, reply) =>
          if req.Close? {
            DropRefines(e, s0, w, id);
          } else {
            DispatchRefines(e, s0, w, Pending(id, req, reply), w.holder == Some(id));
          }
      }
      ActKeepsCore(e, w, job);
      assert Refines(e, s0, Act(e, w, job));
      PumpRefines(e, s0, Act(e, w, job));
    }
  }

  lemma {:induction false} JobsRefine<C, L, D>(e: Engine<C, L, D>, s0: Serial<L, D>, w: W<C, L, D>, jobs: seq<Job<C>>)
    requires Refines(e, s0, w) && Inv(w) && FreshOpens(w.sessions.Keys, jobs)
    ensures Refines(e, s0, RunJobs(e, w, jobs))
    decreases |jobs|
  {
    hide Legal, Replay, Handle;
    if jobs != [] {
      HandleRefines(e, s0, w, jobs[0]);
      HandleKeepsInv(e, w, jobs[0]);
      var w' := Handle(e, w, jobs[0]);
      FreshOpensRest(w.sessions.Keys, w'.sessions.Keys, jobs);
      JobsRefine(e, s0, w', jobs[1..]);
    }
  }

  /** For every list of jobs, what the broker did is a run of the sequential database. */
  lemma BrokerIsSequential<C, L, D>(e: Engine<C, L, D>, db: D, jobs: seq<Job<C>>)
    requires FreshOpens({}, jobs)
    ensures Refines(e, Fresh(db), RunJobs(e, Start(db), jobs))
  {
    var w: W<C, L, D> := Start(db);
    assert Abs(w) == Fresh<L, D>(db);
    JobsRefine(e, Fresh(db), w, jobs);
  }
}
