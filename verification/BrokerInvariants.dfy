/** What every job keeps true of the worker. */
module BrokerInvariants {
  import opened Prelude
  import opened Engine
  import opened Script
  import opened Broker

  // ---------- the holder, and freedom from busy ----------

  /** The holder is exactly the one live session whose connection is not in autocommit; nothing is
      left unfinalised; the queue holds no Close; nobody was ever answered busy. */
  ghost predicate Core<C, L, D>(w: W<C, L, D>) {
    && (w.holder.Some? ==> w.holder.value in w.sessions)
    && (forall id | id in w.sessions :: w.sessions[id].open == 0 && (w.sessions[id].tx.Some? <==> w.holder == Some(id)))
    && (forall i | 0 <= i < |w.pending| :: !w.pending[i].req.Close?)
    && NobodyBusy(w.sent)
  }

  ghost predicate NobodyBusy(sent: seq<Sent>) {
    forall i | 0 <= i < |sent| && sent[i].message.Replied? :: sent[i].message.response.fault != Some(Busy)
  }

  /** Between jobs somebody holds a transaction whenever anybody waits. */
  ghost predicate Inv<C, L, D>(w: W<C, L, D>) {
    Core(w) && (w.pending != [] ==> w.holder.Some?)
  }

  predicate MayRun<C, L, D>(w: W<C, L, D>, id: Session) {
    w.holder.None? || w.holder == Some(id)
  }

  /** Session identities are handed out once, so a job never opens one that is live. */
  predicate OpensFresh<C, L, D>(w: W<C, L, D>, job: Job<C>) {
    job.Open? ==> job.id !in w.sessions
  }

  /** Whenever a statement of `id` runs, no other connection holds a lock. */
  lemma NoOtherLock<C, L, D>(w: W<C, L, D>, id: Session)
    requires Core(w) && MayRun(w, id)
    ensures !OthersLocked(w.sessions, id)
    ensures forall k | k in w.sessions && k != id :: w.sessions[k].tx.None? && w.sessions[k].open == 0
  {
  }

  /** It matters: were another connection in a transaction, or left with an open statement, a request of
      `id` would be answered busy and do nothing. */
  lemma LockIsFelt<C, L, D>(e: Engine<C, L, D>, w: W<C, L, D>, p: Pending<C>, held: bool, k: Session)
    requires p.id in w.sessions && k in w.sessions && k != p.id && !p.req.Close? && !HasNul(e, p.req.sql)
    requires w.sessions[k].tx.Some? || w.sessions[k].open > 0
    ensures var w' := Dispatch(e, w, p, held);
            && w'.sent == w.sent + [w'.sent[|w.sent|]]
            && w'.sent[|w.sent|].message.Replied? && w'.sent[|w.sent|].message.response.fault == Some(Busy)
            && w'.db == w.db && w'.sessions == w.sessions
  {
    assert OthersLocked(w.sessions, p.id);
    hide OthersLocked;
    assert w.sessions[p.id := w.sessions[p.id]] == w.sessions;
  }

  lemma DispatchKeepsCore<C, L, D>(e: Engine<C, L, D>, w: W<C, L, D>, p: Pending<C>, held: bool)
    requires Core(w) && MayRun(w, p.id) && !p.req.Close?
    ensures var w' := Dispatch(e, w, p, held);
            Core(w') && w'.pending == w.pending && w'.sessions.Keys == w.sessions.Keys
            && (w'.holder.None? || w'.holder == Some(p.id))
  {
    hide Execute, Prepared;
    NoOtherLock(w, p.id);
    if p.id in w.sessions {
      var conn := w.sessions[p.id];
      FaultsWhenFree(e, p.req.sql, if p.req.Exec? then p.req.params else [], conn, w.db);
      if p.req.Exec? {
        ExecuteTells(e, p.req.sql, p.req.params, conn, w.db);
      }
    }
  }

  lemma ExecuteTells<C, L, D>(e: Engine<C, L, D>, sql: seq<C>, params: seq<Param>, conn: Conn<L, D>, db: D)
    ensures var x := Execute(e, sql, params, conn, db, false);
            x.conn.open == conn.open && (x.response.autocommit <==> x.conn.tx.None?)
  {
    EveryPathFinalises(e, sql, params, conn, db, false);
    hide RunScript;
  }

  lemma {:induction false} WithoutKeeps<C>(pending: seq<Pending<C>>, id: Session)
    ensures forall p | p in Without(pending, id) :: p in pending && p.id != id
    ensures forall p | p in pending && p.id != id :: p in Without(pending, id)
  {
    if pending != [] {
      WithoutKeeps(pending[1..], id);
      assert pending == [pending[0]] + pending[1..];
    }
  }

  lemma {:induction false} RefusalsAreClosed<C>(pending: seq<Pending<C>>, id: Session)
    ensures forall s | s in Refusals(pending, id) ::
              s.id == id && s.message == Replied(ErrorResponse(true, SessionClosed))
  {
    if pending != [] {
      RefusalsAreClosed(pending[1..], id);
    }
  }

  lemma DropKeepsCore<C, L, D>(w: W<C, L, D>, id: Session)
    requires Core(w)
    ensures var w' := DropSession(w, id);
            Core(w') && w'.sessions.Keys == w.sessions.Keys - {id}
                && w'.holder == if w.holder == Some(id) then None else w.holder
  {
    WithoutKeeps(w.pending, id);
    RefusalsAreClosed(w.pending, id);
    var w' := DropSession(w, id);
    forall i | 0 <= i < |w'.pending| ensures !w'.pending[i].req.Close? {
      assert w'.pending[i] in Without(w.pending, id);
    }
    forall i | 0 <= i < |w'.sent| && w'.sent[i].message.Replied?
        ensures w'.sent[i].message.response.fault != Some(Busy) {
      if i >= |w.sent| {
        assert w'.sent[i] in Refusals(w.pending, id);
      }
    }
  }

  lemma {:induction false} PumpKeepsInv<C, L, D>(e: Engine<C, L, D>, w: W<C, L, D>)
    requires Core(w)
    ensures Inv(Pump(e, w)) && Pump(e, w).sessions.Keys == w.sessions.Keys
    decreases |w.pending|
  {
    if w.holder.None? && w.pending != [] {
      var p, rest := w.pending[0], w.(pending := w.pending[1..]);
      DispatchKeepsCore(e, rest, p, false);
      PumpKeepsInv(e, Dispatch(e, rest, p, false));
    }
  }

  lemma ActKeepsCore<C, L, D>(e: Engine<C, L, D>, w: W<C, L, D>, job: Job<C>)
    requires Inv(w) && OpensFresh(w, job) && !Waits(w, job)
    ensures Core(Act(e, w, job))
    ensures Act(e, w, job).sessions.Keys <= w.sessions.Keys + (if job.Open? then {job.id} else {})
  {
    match job
    case Open(id, reply, opens) =>
    case Drop(id, reply) =>
      DropKeepsCore(w, id);
    case Req(id, req, reply) =>
      if req.Close? {
        DropKeepsCore(w, id);
      } else {
        DispatchKeepsCore(e, w, Pending(id, req, reply), w.holder == Some(id));
      }
  }

  /** Every job keeps the invariant, including failed scripts that leave a transaction open and
      the loss of the holder. */
  lemma HandleKeepsInv<C, L, D>(e: Engine<C, L, D>, w: W<C, L, D>, job: Job<C>)
    requires Inv(w) && OpensFresh(w, job)
    ensures Inv(Handle(e, w, job))
    ensures Handle(e, w, job).sessions.Keys <= w.sessions.Keys + (if job.Open? then {job.id} else {})
  {
    if !Waits(w, job) {
      ActKeepsCore(e, w, job);
      PumpKeepsInv(e, Act(e, w, job));
    }
  }

  /** No session identity is opened twice, and none of the live ones is opened again. */
  ghost predicate FreshOpens<C>(live: set<Session>, jobs: seq<Job<C>>) {
    && (forall i | 0 <= i < |jobs| && jobs[i].Open? :: jobs[i].id !in live)
    && (forall i, j | 0 <= i < j < |jobs| && jobs[i].Open? && jobs[j].Open? :: jobs[i].id != jobs[j].id)
  }

  lemma FreshOpensRest<C>(live: set<Session>, live': set<Session>, jobs: seq<Job<C>>)
    requires FreshOpens(live, jobs) && jobs != []
    requires live' <= live + (if jobs[0].Open? then {jobs[0].id} else {})
    ensures FreshOpens(live', jobs[1..])
  {
  }

  lemma {:induction false} JobsKeepInv<C, L, D>(e: Engine<C, L, D>, w: W<C, L, D>, jobs: seq<Job<C>>)
    requires Inv(w) && FreshOpens(w.sessions.Keys, jobs)
    ensures Inv(RunJobs(e, w, jobs))
    decreases |jobs|
  {
    if jobs != [] {
      HandleKeepsInv(e, w, jobs[0]);
      var w' := Handle(e, w, jobs[0]);
      FreshOpensRest(w.sessions.Keys, w'.sessions.Keys, jobs);
      JobsKeepInv(e, w', jobs[1..]);
    }
  }

  /** For every list of jobs from an empty broker: the holder invariant, and no answer is busy. */
  lemma HolderIsTheOpenTransaction<C, L, D>(e: Engine<C, L, D>, db: D, jobs: seq<Job<C>>)
    requires FreshOpens({}, jobs)
    ensures var w := RunJobs(e, Start(db), jobs);
            && (forall h :: w.holder == Some(h) <==> h in w.sessions && !w.sessions[h].Autocommit())
            && (forall i, j | i in w.sessions && j in w.sessions && w.sessions[i].Locked()
                && w.sessions[j].Locked() :: i == j)
            && (w.pending != [] ==> w.holder.Some?)
            && NobodyBusy(w.sent)
  {
    JobsKeepInv(e, Start(db), jobs);
  }

  // ---------- every request is answered once or still waits ----------

  function PendingTickets<C>(ps: seq<Pending<C>>): multiset<Ticket> {
    if ps == [] then multiset{} else multiset{ps[0].reply} + PendingTickets(ps[1..])
  }

  function SentTickets(ss: seq<Sent>): multiset<Ticket> {
    if ss == [] then multiset{} else multiset{ss[0].reply} + SentTickets(ss[1..])
  }

  function JobTickets<C>(jobs: seq<Job<C>>): multiset<Ticket> {
    if jobs == [] then multiset{} else multiset{jobs[0].reply} + JobTickets(jobs[1..])
  }

  lemma {:induction false} PendingTicketsAppend<C>(a: seq<Pending<C>>, b: seq<Pending<C>>)
    ensures PendingTickets(a + b) == PendingTickets(a) + PendingTickets(b)
  {
    if a == [] {
      NoPrefix(b);
    } else {
      PendingTicketsAppend(a[1..], b);
      AppendParts(a, b);
      SumAssoc(multiset{a[0].reply}, PendingTickets(a[1..]), PendingTickets(b));
    }
  }

  lemma {:induction false} SentTicketsAppend(a: seq<Sent>, b: seq<Sent>)
    ensures SentTickets(a + b) == SentTickets(a) + SentTickets(b)
  {
    if a == [] {
      NoPrefix(b);
    } else {
      SentTicketsAppend(a[1..], b);
      AppendParts(a, b);
      SumAssoc(multiset{a[0].reply}, SentTickets(a[1..]), SentTickets(b));
    }
  }

  function Owed<C, L, D>(w: W<C, L, D>): multiset<Ticket> {
    SentTickets(w.sent) + PendingTickets(w.pending)
  }

  lemma {:induction false} DropSplitsQueue<C>(pending: seq<Pending<C>>, id: Session)
    ensures PendingTickets(pending) == PendingTickets(Without(pending, id)) + SentTickets(Refusals(pending, id))
  {
    if pending != [] {
      var p, rest := pending[0], pending[1..];
      DropSplitsQueue(rest, id);
      if p.id == id {
        NoPrefix(Without(rest, id));
        SentTicketsAppend([Sent(p.reply, id, Replied(ErrorResponse(true, SessionClosed)))], Refusals(rest, id));
      } else {
        NoPrefix(Refusals(rest, id));
        PendingTicketsAppend([p], Without(rest, id));
      }
    }
  }

  lemma DropConserves<C, L, D>(w: W<C, L, D>, id: Session)
    ensures Owed(DropSession(w, id)) == Owed(w)
  {
    DropSplitsQueue(w.pending, id);
    SentTicketsAppend(w.sent, Refusals(w.pending, id));
  }

  /** One more message sent into `reply`. */
  lemma OneMore(sent: seq<Sent>, s: Sent)
    ensures SentTickets(sent + [s]) == SentTickets(sent) + multiset{s.reply}
  {
    SentTicketsAppend(sent, [s]);
  }

  lemma DispatchConserves<C, L, D>(e: Engine<C, L, D>, w: W<C, L, D>, p: Pending<C>, held: bool)
    ensures Owed(Dispatch(e, w, p, held)) == Owed(w) + multiset{p.reply}
  {
    hide Execute, Prepared, DropSession, SentTickets, PendingTickets;
    var w' := Dispatch(e, w, p, held);
    if p.req.Close? {
      DropConserves(w, p.id);
      OneMore(DropSession(w, p.id).sent, w'.sent[|w'.sent| - 1]);
    } else {
      OneMore(w.sent, w'.sent[|w.sent|]);
    }
  }

  lemma {:induction false} PumpConserves<C, L, D>(e: Engine<C, L, D>, w: W<C, L, D>)
    ensures Owed(Pump(e, w)) == Owed(w)
    decreases |w.pending|
  {
    if w.holder.None? && w.pending != [] {
      var p, rest := w.pending[0], w.(pending := w.pending[1..]);
      DispatchShrinksQueue(e, rest, p, false);
      DispatchConserves(e, rest, p, false);
      PumpConserves(e, Dispatch(e, rest, p, false));
    }
  }

  lemma ActConserves<C, L, D>(e: Engine<C, L, D>, w: W<C, L, D>, job: Job<C>)
    ensures Owed(Act(e, w, job)) == Owed(w) + multiset{job.reply}
  {
    hide Dispatch, DropSession, SentTickets, PendingTickets;
    match job
    case Open(id, reply, opens) =>
      OneMore(w.sent, Sent(reply, id, Opened(opens)));
    case Drop(id, reply) =>
      DropConserves(w, id);
      OneMore(DropSession(w, id).sent, Sent(reply, id, Dropped));
    case Req(id, req, reply) =>
      DispatchConserves(e, w, Pending(id, req, reply), w.holder == Some(id));
  }

  /** Handling a job adds its own reply channel, and nothing else, to what is answered or waits. */
  lemma HandleConserves<C, L, D>(e: Engine<C, L, D>, w: W<C, L, D>, job: Job<C>)
    ensures Owed(Handle(e, w, job)) == Owed(w) + multiset{job.reply}
  {
    if Waits(w, job) {
      PendingTicketsAppend(w.pending, [Pending(job.id, job.req, job.reply)]);
    } else {
      hide Act, Owed;
      ActConserves(e, w, job);
      PumpConserves(e, Act(e, w, job));
    }
  }

  /** For every list of jobs: each reply channel handed in has been answered once or is still
      queued once, never both, and no other channel is ever written to. */
  lemma {:induction false} EveryRequestOnce<C, L, D>(e: Engine<C, L, D>, w: W<C, L, D>, jobs: seq<Job<C>>)
    ensures Owed(RunJobs(e, w, jobs)) == Owed(w) + JobTickets(jobs)
    decreases |jobs|
  {
    if jobs != [] {
      HandleConserves(e, w, jobs[0]);
      EveryRequestOnce(e, Handle(e, w, jobs[0]), jobs[1..]);
    }
  }
}
