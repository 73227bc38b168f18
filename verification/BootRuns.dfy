/** Runs of any number of migrating processes: what is committed, what the calls return, and what
    answers lost on the way do to the returns. */
module BootRuns {
  import opened Prelude
  import opened Engine
  import opened Script
  import opened Broker
  import opened BrokerInvariants
  import opened Migration
  import opened Boot
  import opened BootSteps
  import C = Clients

  /** A process: where it stands by the answers it has heard, how many those are, and whether its
      connection is open. A process that lost its connection stays where it stood. */
  datatype Proc = Proc(pc: PC, heard: nat, alive: bool)

  /** The broker, the processes, the `migrate` calls that returned 1, and the reply channels. */
  datatype World<L> = World(
    w: W<Sql, L, Schema>,
    procs: map<Session, Proc>,
    returned: seq<(Session, nat)>,
    calls: set<Ticket>,
    tickets: nat)

  datatype Action =
    | Arrive(id: Session, opens: bool)
    | Send(id: Session)
    | Hear(id: Session)
    | Leave(id: Session, closing: bool)

  function NewWorld<L>(d: Schema): World<L> {
    World(Start(d), map[], [], {}, 0)
  }

  function BooksOf<L>(b: World<L>): Books {
    Books(b.calls, map id | id in b.procs :: b.procs[id].heard, b.returned)
  }

  function AnswersTo<L>(b: World<L>, id: Session): seq<Response> {
    Answers(b.calls, b.w.sent, id)
  }

  /** A process sends when it has heard all its answers, and hears them one by one. */
  predicate Enabled<L>(u: Setup, b: World<L>, a: Action) {
    match a
    case Arrive(id, _) => id !in b.procs
    case Send(id) =>
      && id in b.procs && b.procs[id].alive && b.procs[id].heard == |AnswersTo(b, id)|
      && Wanted(u.plan, b.procs[id].pc).Some? && forall i | 0 <= i < |b.w.pending| :: b.w.pending[i].id != id
    case Hear(id) => id in b.procs && b.procs[id].alive && b.procs[id].heard < |AnswersTo(b, id)|
    case Leave(id, _) => id in b.procs && b.procs[id].alive
  }

  /** The job an action hands to the broker. */
  function JobOf<L>(u: Setup, b: World<L>, a: Action): Job<Sql>
    requires Enabled(u, b, a) && !a.Hear?
  {
    match a
    case Arrive(id, opens) => Job.Open(id, b.tickets, opens)
    case Send(id) => Req(id, Wanted(u.plan, b.procs[id].pc).value, b.tickets)
    case Leave(id, closing) => if closing then Req(id, Request.Close, b.tickets) else Job.Drop(id, b.tickets)
  }

  /** The processes' side of an action, before the broker handles its job. */
  function Prepared1<L>(b: World<L>, a: Action): World<L>
    requires a.Hear? || a.Leave? ==> a.id in b.procs
    requires a.Hear? ==> b.procs[a.id].heard < |AnswersTo(b, a.id)|
  {
    match a
    case Arrive(id, opens) => b.(procs := b.procs[id := Proc(Creating, 0, opens)])
    case Send(id) => b.(calls := b.calls + {b.tickets})
    case Leave(id, _) => b.(procs := b.procs[id := b.procs[id].(alive := false)])
    case Hear(_) => b
  }

  function Heard<L>(u: Setup, b: World<L>, id: Session): World<L>
    requires id in b.procs && b.procs[id].heard < |AnswersTo(b, id)|
  {
    var p := b.procs[id];
    var r := AnswersTo(b, id)[p.heard];
    b.(procs := b.procs[id := Proc(AfterAnswer(u.plan, p.pc, r, u.benign), p.heard + 1, p.alive)],
       returned := if Commits(p.pc, r) then b.returned + [(id, p.pc.v)] else b.returned)
  }

  function Do<L>(e: Engine<Sql, L, Schema>, u: Setup, b: World<L>, a: Action): World<L>
    requires Enabled(u, b, a)
  {
    if a.Hear? then Heard(u, b, a.id)
    else Prepared1(b, a).(w := Handle(e, b.w, JobOf(u, b, a)), tickets := b.tickets + 1)
  }

  function Run<L>(e: Engine<Sql, L, Schema>, u: Setup, b: World<L>, actions: seq<Action>): Option<World<L>>
    decreases |actions|
  {
    if actions == [] then Some(b)
    else if !Enabled(u, b, actions[0]) then None
    else Run(e, u, Do(e, u, b, actions[0]), actions[1..])
  }

  // ---------- the invariant ----------

  /** A version lies behind a process. */
  predicate Past(plan: Plan, pc: PC, v: nat) {
    pc.Undoing? || pc.GaveUp? || v < VersionOf(plan, pc)
  }

  ghost predicate ProcStands<L>(u: Setup, b: World<L>, id: Session)
    requires id in b.procs
  {
    var p := b.procs[id];
    && p.heard <= |AnswersTo(b, id)| && p.pc == Stand(u, AnswersTo(b, id)[..p.heard])
    && EarlierDone(u.plan, p.pc, b.w.db.marks)
  }

  ghost predicate ReturnsFit<L>(u: Setup, b: World<L>) {
    && (forall i | 0 <= i < |b.returned| ::
          && b.returned[i] in Wins(u, b.calls, b.w.sent) && b.returned[i].0 in b.procs
          && Past(u.plan, b.procs[b.returned[i].0].pc, b.returned[i].1))
    && (forall i, j | 0 <= i < j < |b.returned| :: b.returned[i] != b.returned[j])
  }

  ghost predicate TicketsFit<L>(b: World<L>) {
    && (forall t | t in b.calls :: t < b.tickets)
    && (forall t | t in Owed(b.w) :: t < b.tickets)
  }

  ghost predicate WorldFits<L>(u: Setup, b: World<L>) {
    && Inv(b.w) && BrokerFits(u, BooksOf(b), b.w)
    && (forall id :: id in b.w.sessions <==> id in b.procs && b.procs[id].alive)
    && (forall id | id in b.procs :: ProcStands(u, b, id))
    && ReturnsFit(u, b) && TicketsFit(b)
  }

  // ---------- a new reply channel ----------

  lemma {:induction false} NewChannel(u: Setup, calls: set<Ticket>, sent: seq<Sent>, t: Ticket)
    requires forall i | 0 <= i < |sent| :: sent[i].reply != t
    ensures forall id :: Answers(calls + {t}, sent, id) == Answers(calls, sent, id)
    ensures Wins(u, calls + {t}, sent) == Wins(u, calls, sent)
  {
    if sent != [] {
      NewChannel(u, calls, sent[..|sent| - 1], t);
    }
  }

  lemma NoMessageYet<L>(b: World<L>)
    requires TicketsFit(b)
    ensures forall i | 0 <= i < |b.w.sent| :: b.w.sent[i].reply < b.tickets
  {
    forall i | 0 <= i < |b.w.sent| ensures b.w.sent[i].reply < b.tickets {
      C.SentCounted(b.w.sent, i);
      assert b.w.sent[i].reply in Owed(b.w);
    }
  }

  lemma TicketsStay<L>(e: Engine<Sql, L, Schema>, u: Setup, b: World<L>, a: Action)
    requires TicketsFit(b) && Enabled(u, b, a)
    ensures TicketsFit(Do(e, u, b, a))
  {
    hide Handle, Owed, Wanted, AfterAnswer, Answers, TicketsFit;
    var b' := Do(e, u, b, a);
    if a.Hear? {
      MoreTickets(b, b', []);
    } else {
      HandleConserves(e, b.w, JobOf(u, b, a));
      MoreTickets(b, b', [b.tickets]);
    }
  }

  lemma MoreTickets<L>(b: World<L>, b': World<L>, more: seq<Ticket>)
    requires TicketsFit(b) && b'.tickets == b.tickets + |more| && (more == [] || more == [b.tickets])
    requires b'.calls == b.calls || (more != [] && b'.calls == b.calls + {b.tickets})
    requires Owed(b'.w) == Owed(b.w) + multiset(more)
    ensures TicketsFit(b')
  {
    hide Owed;
    assert multiset(more) == if more == [] then multiset{} else multiset{b.tickets};
  }

  // ---------- growing answers ----------

  /** A process that has not moved stands where it stood when answers and ledger grow. */
  lemma StandsStill<L>(u: Setup, b: World<L>, b': World<L>, id: Session)
    requires id in b.procs && id in b'.procs && ProcStands(u, b, id) && AnswersTo(b, id) <= AnswersTo(b', id)
    requires b'.procs[id].pc == b.procs[id].pc && b'.procs[id].heard == b.procs[id].heard
             && b.w.db.marks <= b'.w.db.marks
    ensures ProcStands(u, b', id)
  {
    hide Answers, Stand;
    var n := b.procs[id].heard;
    assert AnswersTo(b', id)[..n] == AnswersTo(b, id)[..n];
  }

  lemma DispatchAppends<L>(e: Engine<Sql, L, Schema>, w: W<Sql, L, Schema>, p: Pending<Sql>, held: bool)
    ensures w.sent <= Dispatch(e, w, p, held).sent
  {
    hide Execute, Prepared, Refusals;
  }

  lemma {:induction false} PumpAppends<L>(e: Engine<Sql, L, Schema>, w: W<Sql, L, Schema>)
    ensures w.sent <= Pump(e, w).sent
    decreases |w.pending|
  {
    if w.holder.None? && w.pending != [] {
      var p, rest := w.pending[0], w.(pending := w.pending[1..]);
      DispatchShrinksQueue(e, rest, p, false);
      DispatchAppends(e, rest, p, false);
      hide Dispatch;
      PumpAppends(e, Dispatch(e, rest, p, false));
    }
  }

  lemma HandleAppends<L>(e: Engine<Sql, L, Schema>, w: W<Sql, L, Schema>, job: Job<Sql>)
    ensures w.sent <= Handle(e, w, job).sent
  {
    if !Waits(w, job) {
      if job.Req? {
        DispatchAppends(e, w, Pending(job.id, job.req, job.reply), w.holder == Some(job.id));
      }
      PumpAppends(e, Act(e, w, job));
      hide Pump, Dispatch, Refusals;
    }
  }

  lemma {:induction false} AnswersExtend(u: Setup, calls: set<Ticket>, sent: seq<Sent>, sent': seq<Sent>)
    requires sent <= sent'
    ensures forall id :: Answers(calls, sent, id) <= Answers(calls, sent', id)
    ensures Wins(u, calls, sent) <= Wins(u, calls, sent')
    decreases |sent'|
  {
    if sent != sent' {
      var front, m := sent'[..|sent'| - 1], sent'[|sent'| - 1];
      AnswersExtend(u, calls, sent, front);
      hide IsAnswer, StandOf;
      assert sent' == front + [m];
    }
  }

  // ---------- every action keeps the broker's side ----------

  lemma {:induction false} NoMessagesNoAnswers(calls: set<Ticket>, sent: seq<Sent>, id: Session)
    requires forall i | 0 <= i < |sent| :: sent[i].id != id
    ensures Answers(calls, sent, id) == []
  {
    if sent != [] {
      NoMessagesNoAnswers(calls, sent[..|sent| - 1], id);
    }
  }

  lemma NewProcess<L>(u: Setup, b: Books, w: W<Sql, L, Schema>, id: Session)
    requires BrokerFits(u, b, w) && id !in b.heard
    ensures BrokerFits(u, b.(heard := b.heard[id := 0]), w) && Answers(b.calls, w.sent, id) == []
  {
    NoMessagesNoAnswers(b.calls, w.sent, id);
    hide Answers, Stand, Wins, FileFits, WinsFit, Core, Wanted, WorkingFits, EarlierDone;
    var b' := b.(heard := b.heard[id := 0]);
    forall win | win in Wins(u, b.calls, w.sent) ensures win in b'.returned || Unheard(u, b', w.sent, win.0, win.1) {
    }
    forall k | k in w.sessions ensures ProcFits(u, b', w.sent, w.db, w.holder, k) {
      assert ProcFits(u, b, w.sent, w.db, w.holder, k);
    }
    assert QueueFits(u, b', w.sent, w.pending, w.sessions.Keys);
  }

  lemma JoinFits<L>(e: Engine<Sql, L, Schema>, u: Setup, b: Books, w: W<Sql, L, Schema>, id: Session)
    requires BrokerFits(u, b, w) && id !in w.sessions && id in b.heard && b.heard[id] == 0
             && Answers(b.calls, w.sent, id) == []
    ensures BrokerFits(u, b, w.(sessions := w.sessions[id := NewConn(e)], log := w.log + [Joined(id)]))
  {
    hide Answers, Wins, FileFits, WinsFit, HeardFits, CallFits, ProcFits, WorkingFits, Core, Stand;
    var w' := w.(sessions := w.sessions[id := NewConn(e)], log := w.log + [Joined(id)]);
    JoinKeepsCore(e, w, id);
    NewcomerFits(u, b, w, id);
  }

  lemma JoinKeepsCore<L>(e: Engine<Sql, L, Schema>, w: W<Sql, L, Schema>, id: Session)
    requires Core(w) && id !in w.sessions
    ensures Core(w.(sessions := w.sessions[id := NewConn(e)], log := w.log + [Joined(id)]))
  {
  }

  lemma NewcomerFits<L>(u: Setup, b: Books, w: W<Sql, L, Schema>, id: Session)
    requires id in b.heard && b.heard[id] == 0 && Answers(b.calls, w.sent, id) == []
    ensures ProcFits(u, b, w.sent, w.db, w.holder, id)
  {
    hide Answers;
  }

  lemma OpenFits<L(!new)>(e: Engine<Sql, L, Schema>, u: Setup, b: Books, w: W<Sql, L, Schema>, id: Session, t: Ticket,
                   opens: bool)
    requires MigrationEngine(e, u.plan, u.benign) && BrokerFits(u, b, w)
    requires id !in w.sessions && id in b.heard && b.heard[id] == 0 && Answers(b.calls, w.sent, id) == []
    ensures var w' := Handle(e, w, Job.Open(id, t, opens)); BrokerFits(u, b, w') && w.db.marks <= w'.db.marks
  {
    hide MigrationEngine, BrokerFits, Pump, Answers;
    if opens {
      JoinFits(e, u, b, w, id);
    }
    var w1 := if opens then w.(sessions := w.sessions[id := NewConn(e)], log := w.log + [Joined(id)]) else w;
    NoticeFits(u, b, w1, Sent(t, id, Opened(opens)));
    PumpFits(e, u, b, Act(e, w, Job.Open(id, t, opens)));
  }

  lemma LeaveFits<L(!new)>(e: Engine<Sql, L, Schema>, u: Setup, b: Books, w: W<Sql, L, Schema>, id: Session,
                    t: Ticket, closing: bool)
    requires MigrationEngine(e, u.plan, u.benign) && BrokerFits(u, b, w) && id in w.sessions && t !in b.calls
    ensures var w' := Handle(e, w, if closing then Req(id, Request.Close, t) else Job.Drop(id, t));
            BrokerFits(u, b, w') && w.db.marks <= w'.db.marks
  {
    hide MigrationEngine, BrokerFits, Pump, Core;
    var job := if closing then Req(id, Request.Close, t) else Job.Drop(id, t);
    var m := Sent(t, id, if closing then Replied(CLOSED_RESPONSE) else Dropped);
    DropFits(u, b, w, id);
    LiveIsKnown(u, b, w, id);
    NoticeFits(u, b, DropSession(w, id), m);
    assert Act(e, w, job) == DropSession(w, id).(sent := DropSession(w, id).sent + [m]);
    hide DropSession;
    PumpFits(e, u, b, Act(e, w, job));
  }

  lemma LiveIsKnown<L>(u: Setup, b: Books, w: W<Sql, L, Schema>, id: Session)
    requires BrokerFits(u, b, w) && id in w.sessions
    ensures id in b.heard
  {
    assert ProcFits(u, b, w.sent, w.db, w.holder, id);
  }

  lemma EnqueueFits<L>(u: Setup, b: Books, w: W<Sql, L, Schema>, p: Pending<Sql>)
    requires BrokerFits(u, b, w) && p.id in w.sessions && CallFits(u, b, w.sent, p)
    requires forall i | 0 <= i < |w.pending| :: w.pending[i].id != p.id
    ensures BrokerFits(u, b, w.(pending := w.pending + [p]))
  {
    assert !p.req.Close?;
    hide CallFits, ProcFits, FileFits, WinsFit, HeardFits, Wins, StandOf, WorkingFits;
  }

  lemma SendFits<L(!new)>(e: Engine<Sql, L, Schema>, u: Setup, b: Books, w: W<Sql, L, Schema>, p: Pending<Sql>)
    requires MigrationEngine(e, u.plan, u.benign) && BrokerFits(u, b, w) && p.id in w.sessions
             && CallFits(u, b, w.sent, p)
    requires forall i | 0 <= i < |w.pending| :: w.pending[i].id != p.id
    ensures var w' := Handle(e, w, Req(p.id, p.req, p.reply)); BrokerFits(u, b, w') && w.db.marks <= w'.db.marks
  {
    assert !p.req.Close?;
    hide MigrationEngine, BrokerFits, Pump, Dispatch, CallFits;
    var job := Req(p.id, p.req, p.reply);
    if Waits(w, job) {
      EnqueueFits(u, b, w, p);
    } else {
      DispatchFits(e, u, b, w, p, w.holder == Some(p.id));
      PumpFits(e, u, b, Act(e, w, job));
    }
  }

  /** Handing out a reply channel changes nothing. */
  lemma ChannelFits<L>(u: Setup, b: Books, w: W<Sql, L, Schema>, t: Ticket)
    requires BrokerFits(u, b, w) && forall i | 0 <= i < |w.sent| :: w.sent[i].reply != t
    ensures BrokerFits(u, b.(calls := b.calls + {t}), w)
  {
    NewChannel(u, b.calls, w.sent, t);
    hide Answers, Stand, Wins, FileFits, WinsFit, Core, Wanted, WorkingFits, EarlierDone;
    var b' := b.(calls := b.calls + {t});
    forall win | win in Wins(u, b'.calls, w.sent) ensures win in b'.returned || Unheard(u, b', w.sent, win.0, win.1) {
      assert win in b.returned || Unheard(u, b, w.sent, win.0, win.1);
    }
    forall k | k in w.sessions ensures ProcFits(u, b', w.sent, w.db, w.holder, k) {
      assert ProcFits(u, b, w.sent, w.db, w.holder, k);
    }
    assert QueueFits(u, b', w.sent, w.pending, w.sessions.Keys);
  }

  /** Hearing an answer, which may be that of a COMMIT. */
  lemma HearFits<L>(u: Setup, b: Books, w: W<Sql, L, Schema>, id: Session, returned: seq<(Session, nat)>)
    requires BrokerFits(u, b, w) && id in w.sessions && id in b.heard && b.heard[id] < |Answers(b.calls, w.sent, id)|
    requires b.returned <= returned
    requires var answers := Answers(b.calls, w.sent, id);
             var pc := Stand(u, answers[..b.heard[id]]);
             Commits(pc, answers[b.heard[id]]) ==> (id, pc.v) in returned
    ensures BrokerFits(u, b.(heard := b.heard[id := b.heard[id] + 1], returned := returned), w)
  {
    hide Answers, Stand, Wins, FileFits, WinsFit, Core, Wanted, WorkingFits, EarlierDone;
    var b' := b.(heard := b.heard[id := b.heard[id] + 1], returned := returned);
    forall win | win in Wins(u, b.calls, w.sent) ensures win in b'.returned || Unheard(u, b', w.sent, win.0, win.1) {
      assert win in b.returned || Unheard(u, b, w.sent, win.0, win.1);
    }
    forall k | k in w.sessions ensures ProcFits(u, b', w.sent, w.db, w.holder, k) {
      assert ProcFits(u, b, w.sent, w.db, w.holder, k);
    }
    assert QueueFits(u, b', w.sent, w.pending, w.sessions.Keys);
  }
}
