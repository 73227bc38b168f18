/** The broker's single worker: sessions, the one holder, and the queue behind it. */
module Broker {
  import opened Prelude
  import opened Engine
  import opened Script

  type Session = nat

  /** The identity of one reply channel. */
  type Ticket = nat

  datatype Request<C> = Exec(sql: seq<C>, params: seq<Param>) | Prepare(sql: seq<C>) | Close

  datatype Pending<C> = Pending(id: Session, req: Request<C>, reply: Ticket)

  /** `opens` says whether opening the storage file succeeds. */
  datatype Job<C> =
    | Open(id: Session, reply: Ticket, opens: bool)
    | Req(id: Session, req: Request<C>, reply: Ticket)
    | Drop(id: Session, reply: Ticket)

  datatype Message = Opened(ok: bool) | Replied(response: Response) | Dropped

  /** One message sent into a reply channel; `id` is the session the channel belongs to. */
  datatype Sent = Sent(reply: Ticket, id: Session, message: Message)

  /** What happened to the database and to the connections, in order. Each Exec and each Prepare on
      a live session leaves `Inspected`, even if nothing compiles; the statements an Exec ran follow. */
  datatype Event<C, L, D> =
    | Joined(id: Session)
    | Stepped(id: Session, step: Step<C, L, D>)
    | Inspected(id: Session)
    | Left(id: Session)

  /** One dispatched request, and whether its session held the transaction when it arrived. */
  datatype Served = Served(reply: Ticket, id: Session, held: bool)

  /** The whole state of the worker, with the histories of what it sent, ran and served. */
  datatype W<C, L, D> = W(
    sessions: map<Session, Conn<L, D>>,
    holder: Option<Session>,
    pending: seq<Pending<C>>,
    db: D,
    sent: seq<Sent>,
    log: seq<Event<C, L, D>>,
    served: seq<Served>)

  function Start<C, L, D>(db: D): W<C, L, D> {
    W(map[], None, [], db, [], [], [])
  }

  /** Some other connection holds a lock, so SQLite would answer a statement of `id` with busy. */
  predicate OthersLocked<L, D>(sessions: map<Session, Conn<L, D>>, id: Session) {
    exists k | k in sessions :: k != id && sessions[k].Locked()
  }

  function EventsOf<C, L, D>(id: Session, steps: seq<Step<C, L, D>>): (r: seq<Event<C, L, D>>)
    ensures |r| == |steps| && forall i | 0 <= i < |steps| :: r[i] == Stepped(id, steps[i])
  {
    if steps == [] then [] else [Stepped(id, steps[0])] + EventsOf(id, steps[1..])
  }

  // ---------- the worker as functions ----------

  function NewHolder(holder: Option<Session>, id: Session, autocommit: bool): Option<Session> {
    if !autocommit then Some(id) else if holder == Some(id) then None else holder
  }

  function RunExec<C, L, D>(e: Engine<C, L, D>, w: W<C, L, D>, p: Pending<C>, held: bool): W<C, L, D>
    requires p.req.Exec?
  {
    if p.id in w.sessions then
      var x := Execute(e, p.req.sql, p.req.params, w.sessions[p.id], w.db, OthersLocked(w.sessions, p.id));
      w.(sessions := w.sessions[p.id := x.conn], db := x.db,
         log := w.log + [Inspected(p.id)] + EventsOf(p.id, x.steps),
         holder := NewHolder(w.holder, p.id, x.response.autocommit),
         sent := w.sent + [Sent(p.reply, p.id, Replied(x.response))],
         served := w.served + [Served(p.reply, p.id, held)])
    else
      w.(holder := NewHolder(w.holder, p.id, true),
         sent := w.sent + [Sent(p.reply, p.id, Replied(ErrorResponse(true, NoSession)))],
         served := w.served + [Served(p.reply, p.id, held)])
  }

  function RunPrepare<C, L, D>(e: Engine<C, L, D>, w: W<C, L, D>, p: Pending<C>, held: bool): W<C, L, D>
    requires p.req.Prepare?
  {
    if p.id in w.sessions then
      var r := Prepared(e, p.req.sql, w.sessions[p.id], w.db, OthersLocked(w.sessions, p.id));
      w.(log := w.log + [Inspected(p.id)],
         sent := w.sent + [Sent(p.reply, p.id, Replied(r))],
         served := w.served + [Served(p.reply, p.id, held)])
    else
      w.(sent := w.sent + [Sent(p.reply, p.id, Replied(ErrorResponse(true, NoSession)))],
         served := w.served + [Served(p.reply, p.id, held)])
  }

  /** The queue without the entries of `id`. */
  function Without<C>(pending: seq<Pending<C>>, id: Session): seq<Pending<C>> {
    if pending == [] then []
    else (if pending[0].id == id then [] else [pending[0]]) + Without(pending[1..], id)
  }

  /** The refusals sent to the queued entries of `id`, oldest first. */
  function Refusals<C>(pending: seq<Pending<C>>, id: Session): seq<Sent> {
    if pending == [] then []
    else (if pending[0].id == id then [Sent(pending[0].reply, id, Replied(ErrorResponse(true, SessionClosed)))] else [])
         + Refusals(pending[1..], id)
  }

  function DropSession<C, L, D>(w: W<C, L, D>, id: Session): W<C, L, D> {
    w.(sessions := w.sessions - {id},
       pending := Without(w.pending, id),
       sent := w.sent + Refusals(w.pending, id),
       holder := if w.holder == Some(id) then None else w.holder,
       log := if id in w.sessions then w.log + [Left(id)] else w.log)
  }

  function Dispatch<C, L, D>(e: Engine<C, L, D>, w: W<C, L, D>, p: Pending<C>, held: bool): W<C, L, D> {
    match p.req
    case Exec(_, _) => RunExec(e, w, p, held)
    case Prepare(_) => RunPrepare(e, w, p, held)
    case Close => var w' := DropSession(w, p.id); w'.(sent := w'.sent + [Sent(p.reply, p.id, Replied(CLOSED_RESPONSE))])
  }

  /** Serves the queue from the front until some session holds a transaction. */
  function Pump<C, L, D>(e: Engine<C, L, D>, w: W<C, L, D>): W<C, L, D>
    decreases |w.pending|
  {
    if w.holder.Some? || w.pending == [] then w
    else
      var p, rest := w.pending[0], w.pending[1..];
      DispatchShrinksQueue(e, w.(pending := rest), p, false);
      Pump(e, Dispatch(e, w.(pending := rest), p, false))
  }

  lemma DispatchShrinksQueue<C, L, D>(e: Engine<C, L, D>, w: W<C, L, D>, p: Pending<C>, held: bool)
    ensures |Dispatch(e, w, p, held).pending| <= |w.pending|
  {
    WithoutShrinks(w.pending, p.id);
  }

  lemma {:induction false} WithoutShrinks<C>(pending: seq<Pending<C>>, id: Session)
    ensures |Without(pending, id)| <= |pending|
  {
    if pending != [] {
      WithoutShrinks(pending[1..], id);
    }
  }

  /** A request of another session waits while somebody holds a transaction. */
  predicate Waits<C, L, D>(w: W<C, L, D>, job: Job<C>) {
    job.Req? && !job.req.Close? && w.holder.Some? && w.holder.value != job.id
  }

  function Enqueue<C, L, D>(w: W<C, L, D>, job: Job<C>): W<C, L, D>
    requires job.Req?
  {
    w.(pending := w.pending + [Pending(job.id, job.req, job.reply)])
  }

  /** What a job that does not wait does itself, before the queue is served. */
  function Act<C, L, D>(e: Engine<C, L, D>, w: W<C, L, D>, job: Job<C>): W<C, L, D> {
    match job
    case Open(id, reply, opens) =>
      var w' := if opens then w.(sessions := w.sessions[id := NewConn(e)], log := w.log + [Joined(id)]) else w;
      w'.(sent := w'.sent + [Sent(reply, id, Opened(opens))])
    case Drop(id, reply) =>
      var w' := DropSession(w, id);
      w'.(sent := w'.sent + [Sent(reply, id, Dropped)])
    case Req(id, req, reply) => Dispatch(e, w, Pending(id, req, reply), w.holder == Some(id))
  }

  function Handle<C, L, D>(e: Engine<C, L, D>, w: W<C, L, D>, job: Job<C>): W<C, L, D> {
    if Waits(w, job) then Enqueue(w, job) else Pump(e, Act(e, w, job))
  }

  /** The worker after a list of jobs. */
  function RunJobs<C, L, D>(e: Engine<C, L, D>, w: W<C, L, D>, jobs: seq<Job<C>>): W<C, L, D>
    decreases |jobs|
  {
    if jobs == [] then w else RunJobs(e, Handle(e, w, jobs[0]), jobs[1..])
  }

  // ---------- the worker as it runs ----------

  class Worker<C, L, D> {
    const engine: Engine<C, L, D>
    var sessions: map<Session, Conn<L, D>>
    var holder: Option<Session>
    var pending: seq<Pending<C>>
    /** The committed contents of the storage file. */
    var db: D
    /** Messages sent into the reply channels. */
    var sent: seq<Sent>
    ghost var log: seq<Event<C, L, D>>
    ghost var served: seq<Served>

    ghost function State(): W<C, L, D>
      reads this
    {
      W(sessions, holder, pending, db, sent, log, served)
    }

    constructor (engine: Engine<C, L, D>, storage: D)
      ensures this.engine == engine && State() == Start(storage)
    {
      this.engine := engine;
      sessions, holder, pending, db, sent, log, served := map[], None, [], storage, [], [], [];
    }

    method HandleJob(job: Job<C>)
      modifies this
      ensures State() == Handle(engine, old(State()), job)
    {
      match job {
        case Open(id, reply, opens) =>
          if opens {
            sessions := sessions[id := NewConn(engine)];
            log := log + [Joined(id)];
          }
          Send(reply, id, Opened(opens));
          PumpQueue();
        case Drop(id, reply) =>
          DropOne(id);
          Send(reply, id, Dropped);
          PumpQueue();
        case Req(id, req, reply) =>
          if req.Close? {
            DropOne(id);
            Send(reply, id, Replied(CLOSED_RESPONSE));
            PumpQueue();
          } else {
            if holder.Some? && holder.value != id {
              pending := pending + [Pending(id, req, reply)];
              return;
            }
            DispatchOne(Pending(id, req, reply), holder == Some(id));
            PumpQueue();
          }
      }
    }

    method Send(reply: Ticket, id: Session, message: Message)
      modifies this`sent
      ensures sent == old(sent) + [Sent(reply, id, message)]
    {
      sent := sent + [Sent(reply, id, message)];
    }

    method DispatchOne(p: Pending<C>, ghost held: bool)
      modifies this
      ensures State() == Dispatch(engine, old(State()), p, held)
    {
      match p.req {
        case Exec(sql, params) => ExecOne(p, sql, params, held);
        case Prepare(sql) => PrepareOne(p, sql, held);
        case Close =>
          DropOne(p.id);
          Send(p.reply, p.id, Replied(CLOSED_RESPONSE));
      }
    }

    method PrepareOne(p: Pending<C>, sql: seq<C>, ghost held: bool)
      requires p.req == Prepare(sql)
      modifies this
      ensures State() == RunPrepare(engine, old(State()), p, held)
    {
      var response := ErrorResponse(true, NoSession);
      if p.id in sessions {
        var conn: Conn<L, D>;
        conn, response := PrepareMeta(engine, sql, sessions[p.id], db, OthersLocked(sessions, p.id));
        sessions := sessions[p.id := conn];
        log := log + [Inspected(p.id)];
      }
      Send(p.reply, p.id, Replied(response));
      served := served + [Served(p.reply, p.id, held)];
      assert sessions == old(sessions);
    }

    method ExecOne(p: Pending<C>, sql: seq<C>, params: seq<Param>, ghost held: bool)
      requires p.req == Exec(sql, params)
      modifies this
      ensures State() == RunExec(engine, old(State()), p, held)
    {
      var response := ErrorResponse(true, NoSession);
      if p.id in sessions {
        var conn: Conn<L, D>;
        ghost var steps: seq<Step<C, L, D>>;
        conn, db, response, steps := ExecuteScript(engine, sql, params, sessions[p.id], db,
            OthersLocked(sessions, p.id));
        sessions := sessions[p.id := conn];
        log := log + [Inspected(p.id)] + EventsOf(p.id, steps);
      }
      var wasHolder := holder == Some(p.id);
      if !response.autocommit {
        holder := Some(p.id);
      } else if wasHolder {
        holder := None;
      }
      Send(p.reply, p.id, Replied(response));
      served := served + [Served(p.reply, p.id, held)];
    }

    method PumpQueue()
      modifies this
      ensures State() == Pump(engine, old(State()))
    {
      while holder.None?
        invariant Pump(engine, State()) == Pump(engine, old(State()))
        decreases |pending|
      {
        if pending == [] {
          return;
        }
        var p := pending[0];
        pending := pending[1..];
        DispatchShrinksQueue(engine, State(), p, false);
        DispatchOne(p, false);
      }
    }

    method DropOne(id: Session)
      modifies this
      ensures State() == DropSession(old(State()), id)
    {
      hide Without, Refusals;
      NothingQueued<C>(id);
      if id in sessions {
        log := log + [Left(id)];
      }
      sessions := sessions - {id};
      var kept: seq<Pending<C>> := [];
      NoPrefix(Without(pending, id));
      while pending != []
        invariant kept + Without(pending, id) == Without(old(pending), id)
        invariant sent + Refusals(pending, id) == old(sent) + Refusals(old(pending), id)
        modifies this`pending, this`sent
        decreases |pending|
      {
        SplitsFront(kept, sent, pending, id);
        var p := pending[0];
        pending := pending[1..];
        if p.id == id {
          Send(p.reply, id, Replied(ErrorResponse(true, SessionClosed)));
        } else {
          kept := kept + [p];
        }
      }
      NoSuffix(kept);
      NoSuffix(sent);
      pending := kept;
      if holder == Some(id) {
        holder := None;
      }
    }
  }

  /** The worker thread: one job after another, in the order the channel delivers them. */
  method WorkerLoop<C, L, D>(engine: Engine<C, L, D>, storage: D, jobs: seq<Job<C>>) returns (worker: Worker<C, L, D>)
    ensures fresh(worker) && worker.engine == engine && worker.State() == RunJobs(engine, Start(storage), jobs)
  {
    hide Handle;
    worker := new Worker(engine, storage);
    assert jobs[0..] == jobs;
    for i := 0 to |jobs|
      invariant fresh(worker) && worker.engine == engine
      invariant RunJobs(engine, worker.State(), jobs[i..]) == RunJobs(engine, Start(storage), jobs)
    {
      assert jobs[i..][1..] == jobs[i + 1..];
      worker.HandleJob(jobs[i]);
    }
  }

  lemma NothingQueued<C>(id: Session)
    ensures Without<C>([], id) == [] && Refusals<C>([], id) == []
  {
  }

  lemma SplitsFront<C>(kept: seq<Pending<C>>, sent: seq<Sent>, pending: seq<Pending<C>>, id: Session)
    requires pending != []
    ensures var p, rest := pending[0], pending[1..];
            if p.id == id then
              && kept + Without(pending, id) == kept + Without(rest, id)
              && sent + Refusals(pending, id)
                 == sent + [Sent(p.reply, id, Replied(ErrorResponse(true, SessionClosed)))] + Refusals(rest, id)
            else
              && kept + Without(pending, id) == kept + [p] + Without(rest, id)
              && sent + Refusals(pending, id) == sent + Refusals(rest, id)
  {
    var p, rest := pending[0], pending[1..];
    NoPrefix(Without(rest, id));
    NoPrefix(Refusals(rest, id));
    Assoc(kept, [p], Without(rest, id));
    Assoc(sent, [Sent(p.reply, id, Replied(ErrorResponse(true, SessionClosed)))], Refusals(rest, id));
  }
}
