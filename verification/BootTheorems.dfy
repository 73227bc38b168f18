/** What every run of the migrating processes comes to. */
module BootTheorems {
  import opened Prelude
  import opened Engine
  import opened Broker
  import opened BrokerInvariants
  import opened Migration
  import opened Boot
  import opened BootRuns
  import D = Discipline

  // ---------- every action keeps the invariant ----------

  lemma HandleSessions<L>(e: Engine<Sql, L, Schema>, w: W<Sql, L, Schema>, job: Job<Sql>)
    requires Inv(w) && OpensFresh(w, job)
    ensures Handle(e, w, job).sessions.Keys == D.SessionsAfter(w.sessions.Keys, job)
  {
    if !Waits(w, job) {
      ActKeepsCore(e, w, job);
      PumpKeepsInv(e, Act(e, w, job));
      if job.Req? && !job.req.Close? {
        DispatchKeepsCore(e, w, Pending(job.id, job.req, job.reply), w.holder == Some(job.id));
      } else if !job.Open? {
        DropKeepsCore(w, job.id);
      }
      hide Pump, Dispatch, DropSession;
    }
  }

  lemma PastGrows(plan: Plan, pc: PC, r: Response, benign: Fault -> bool, v: nat, marks: set<nat>)
    requires EarlierDone(plan, pc, marks)
    ensures Past(plan, pc, v) ==> Past(plan, AfterAnswer(plan, pc, r, benign), v)
    ensures Commits(pc, r) && v == pc.v ==> Past(plan, AfterAnswer(plan, pc, r, benign), v) && !Past(plan, pc, v)
  {
  }

  lemma {:induction false} AnswerIsWin(u: Setup, calls: set<Ticket>, sent: seq<Sent>, id: Session, k: nat)
    requires k < |Answers(calls, sent, id)|
             && Commits(Stand(u, Answers(calls, sent, id)[..k]), Answers(calls, sent, id)[k])
    ensures (id, Stand(u, Answers(calls, sent, id)[..k]).v) in Wins(u, calls, sent)
  {
    var front, m := sent[..|sent| - 1], sent[|sent| - 1];
    var before, answers := Answers(calls, front, id), Answers(calls, sent, id);
    hide Stand;
    if k < |before| {
      assert answers[..k] == before[..k];
      AnswerIsWin(u, calls, front, id, k);
    } else {
      assert answers[..k] == before;
    }
  }

  /** A connected process has at most one answer it has not heard. */
  lemma AliveFits<L>(u: Setup, b: World<L>, id: Session)
    requires WorldFits(u, b) && id in b.procs && b.procs[id].alive
    ensures id in b.w.sessions && ProcStands(u, b, id) && |AnswersTo(b, id)| <= b.procs[id].heard + 1
    ensures EarlierDone(u.plan, Stand(u, AnswersTo(b, id)), b.w.db.marks)
  {
    hide Answers, Stand, EarlierDone, ReturnsFit, TicketsFit, Inv, QueueFits, HolderFits, FileFits, WinsFit,
         HeardFits, Wins;
    assert ProcFits(u, BooksOf(b), b.w.sent, b.w.db, b.w.holder, id);
  }

  lemma HearSide<L>(u: Setup, b: World<L>, id: Session)
    requires WorldFits(u, b) && Enabled(u, b, Hear(id))
    ensures BrokerFits(u, BooksOf(Heard(u, b, id)), b.w)
  {
    hide BrokerFits, ReturnsFit, Answers, Stand, TicketsFit, Inv, AfterAnswer, EarlierDone;
    var p, b' := b.procs[id], Heard(u, b, id);
    AliveFits(u, b, id);
    hide WorldFits;
    HeardBooks(u, b, id);
    assert BrokerFits(u, BooksOf(b), b.w) by { BrokerOf(u, b); }
    hide BooksOf;
    HearFits(u, BooksOf(b), b.w, id, b'.returned);
  }

  lemma BrokerOf<L>(u: Setup, b: World<L>)
    requires WorldFits(u, b)
    ensures BrokerFits(u, BooksOf(b), b.w)
  {
  }

  lemma HeardBooks<L>(u: Setup, b: World<L>, id: Session)
    requires id in b.procs && b.procs[id].heard < |AnswersTo(b, id)|
    ensures var b', books := Heard(u, b, id), BooksOf(b);
            && books.calls == b.calls && books.returned == b.returned && id in books.heard
                && books.heard[id] == b.procs[id].heard
            && BooksOf(b') == books.(heard := books.heard[id := books.heard[id] + 1], returned := b'.returned)
  {
    hide AfterAnswer, Answers;
  }

  lemma HearKeeps<L>(u: Setup, b: World<L>, id: Session)
    requires WorldFits(u, b) && Enabled(u, b, Hear(id))
    ensures WorldFits(u, Heard(u, b, id))
  {
    hide BrokerFits, ReturnsFit, Answers, TicketsFit, Inv, AfterAnswer, ProcStands, Commits, BooksOf;
    var b' := Heard(u, b, id);
    HearSide(u, b, id);
    HearStands(u, b, id);
    HearReturns(u, b, id);
    SameTickets(b, b');
  }

  lemma SameTickets<L>(b: World<L>, b': World<L>)
    requires TicketsFit(b) && b'.calls == b.calls && b'.w == b.w && b'.tickets == b.tickets
    ensures TicketsFit(b')
  {
  }

  lemma HearStands<L>(u: Setup, b: World<L>, id: Session)
    requires WorldFits(u, b) && Enabled(u, b, Hear(id))
    ensures forall k | k in b.procs :: ProcStands(u, Heard(u, b, id), k)
  {
    hide BrokerFits, ReturnsFit, Answers, Stand, TicketsFit, Inv, AfterAnswer, EarlierDone;
    var p, answers, b' := b.procs[id], AnswersTo(b, id), Heard(u, b, id);
    AliveFits(u, b, id);
    assert answers[..p.heard + 1] == answers == answers[..p.heard] + [answers[p.heard]];
    StandGrows(u, answers[..p.heard], answers[p.heard]);
    forall k | k in b.procs ensures ProcStands(u, b', k) {
      assert ProcStands(u, b, k);
    }
  }

  lemma HearReturns<L>(u: Setup, b: World<L>, id: Session)
    requires WorldFits(u, b) && Enabled(u, b, Hear(id))
    ensures ReturnsFit(u, Heard(u, b, id))
  {
    hide BrokerFits, Answers, Stand, TicketsFit, Inv, AfterAnswer, EarlierDone, Wins, VersionOf, Past;
    var p, b' := b.procs[id], Heard(u, b, id);
    var r := AnswersTo(b, id)[p.heard];
    AliveFits(u, b, id);
    if Commits(p.pc, r) {
      AnswerIsWin(u, b.calls, b.w.sent, id, p.heard);
      PastGrows(u.plan, p.pc, r, u.benign, p.pc.v, b.w.db.marks);
    }
    forall i | 0 <= i < |b.returned| && b.returned[i].0 == id ensures Past(u.plan, b'.procs[id].pc, b.returned[i].1) {
      PastGrows(u.plan, p.pc, r, u.benign, b.returned[i].1, b.w.db.marks);
    }
    ReturnedOneMore(u, b, b', id);
  }

  lemma ReturnedOneMore<L>(u: Setup, b: World<L>, b': World<L>, id: Session)
    requires ReturnsFit(u, b) && id in b.procs && b'.w == b.w && b'.calls == b.calls
    requires id in b'.procs && b'.procs == b.procs[id := b'.procs[id]]
    requires forall i | 0 <= i < |b.returned| && b.returned[i].0 == id :: Past(u.plan, b'.procs[id].pc, b.returned[i].1)
    requires b'.returned == b.returned
             || exists v: nat :: b'.returned == b.returned + [(id, v)] && (id, v) in Wins(u, b.calls, b.w.sent)
                            && Past(u.plan, b'.procs[id].pc, v) && !Past(u.plan, b.procs[id].pc, v)
    ensures ReturnsFit(u, b')
  {
    hide Past, Wins;
  }

  /** The answers, the commits and the ledger only grow under an action that hands in a job. */
  lemma JobGrows<L>(u: Setup, b: World<L>, b': World<L>)
    requires ReturnsFit(u, b) && b.w.sent <= b'.w.sent && b.w.db.marks <= b'.w.db.marks && b'.returned == b.returned
    requires forall i | 0 <= i < |b.w.sent| :: b.w.sent[i].reply < b.tickets
    requires b'.calls == b.calls || b'.calls == b.calls + {b.tickets}
    requires forall id | id in b.procs ::
               id in b'.procs && b'.procs[id].pc == b.procs[id].pc && b'.procs[id].heard == b.procs[id].heard
    ensures ReturnsFit(u, b')
    ensures forall id | id in b.procs && ProcStands(u, b, id) :: ProcStands(u, b', id)
  {
    NewChannel(u, b.calls, b.w.sent, b.tickets);
    AnswersExtend(u, b'.calls, b.w.sent, b'.w.sent);
    assert Wins(u, b.calls, b.w.sent) <= Wins(u, b'.calls, b'.w.sent);
    hide Answers, Wins, Stand, EarlierDone, Past;
    forall id | id in b.procs && ProcStands(u, b, id) ensures ProcStands(u, b', id) {
      StandsStill(u, b, b', id);
    }
  }

  lemma ArriveSide<L(!new)>(e: Engine<Sql, L, Schema>, u: Setup, b: World<L>, a: Action)
    requires MigrationEngine(e, u.plan, u.benign) && WorldFits(u, b) && Enabled(u, b, a) && a.Arrive?
    ensures var b' := Do(e, u, b, a); BrokerFits(u, BooksOf(b'), b'.w) && b.w.db.marks <= b'.w.db.marks
  {
    hide MigrationEngine, BrokerFits, Handle, Answers, ReturnsFit, TicketsFit, ProcStands, Inv;
    var books, b' := BooksOf(b), Do(e, u, b, a);
    NewProcess(u, books, b.w, a.id);
    assert BooksOf(b') == books.(heard := books.heard[a.id := 0]);
    OpenFits(e, u, BooksOf(b'), b.w, a.id, b.tickets, a.opens);
  }

  lemma SendSide<L(!new)>(e: Engine<Sql, L, Schema>, u: Setup, b: World<L>, a: Action)
    requires MigrationEngine(e, u.plan, u.benign) && WorldFits(u, b) && Enabled(u, b, a) && a.Send?
    ensures var b' := Do(e, u, b, a); BrokerFits(u, BooksOf(b'), b'.w) && b.w.db.marks <= b'.w.db.marks
  {
    hide MigrationEngine, BrokerFits, Handle, Answers, ReturnsFit, TicketsFit, Inv, Wanted, Stand, EarlierDone;
    var books, b' := BooksOf(b), Do(e, u, b, a);
    AliveFits(u, b, a.id);
    var answers := AnswersTo(b, a.id);
    assert answers[..|answers|] == answers;
    NoMessageYet(b);
    ChannelFits(u, books, b.w, b.tickets);
    NewChannel(u, b.calls, b.w.sent, b.tickets);
    assert BooksOf(b') == books.(calls := b.calls + {b.tickets});
    SendFits(e, u, BooksOf(b'), b.w, Pending(a.id, Wanted(u.plan, b.procs[a.id].pc).value, b.tickets));
  }

  lemma LeaveSide<L(!new)>(e: Engine<Sql, L, Schema>, u: Setup, b: World<L>, a: Action)
    requires MigrationEngine(e, u.plan, u.benign) && WorldFits(u, b) && Enabled(u, b, a) && a.Leave?
    ensures var b' := Do(e, u, b, a); BrokerFits(u, BooksOf(b'), b'.w) && b.w.db.marks <= b'.w.db.marks
  {
    hide MigrationEngine, BrokerFits, Handle, Answers, ReturnsFit, ProcStands, Inv;
    var books, b' := BooksOf(b), Do(e, u, b, a);
    assert BooksOf(b') == books;
    LeaveFits(e, u, books, b.w, a.id, b.tickets, a.closing);
  }

  lemma JobKeeps<L(!new)>(e: Engine<Sql, L, Schema>, u: Setup, b: World<L>, a: Action)
    requires MigrationEngine(e, u.plan, u.benign) && WorldFits(u, b) && Enabled(u, b, a) && !a.Hear?
    ensures WorldFits(u, Do(e, u, b, a))
  {
    hide MigrationEngine, BrokerFits, Handle, Answers, ReturnsFit, TicketsFit, ProcStands, Inv, Wanted;
    var b', job := Do(e, u, b, a), JobOf(u, b, a);
    match a {
      case Arrive(_, _) => ArriveSide(e, u, b, a);
      case Send(_) => SendSide(e, u, b, a);
      case Leave(_, _) => LeaveSide(e, u, b, a);
    }
    TicketsStay(e, u, b, a);
    NoMessageYet(b);
    HandleKeepsInv(e, b.w, job);
    HandleSessions(e, b.w, job);
    HandleAppends(e, b.w, job);
    JobGrows(u, b, b');
    WantedIsNoClose(u, b, a);
    NewcomerStands(u, b, b', a);
  }

  lemma WantedIsNoClose<L>(u: Setup, b: World<L>, a: Action)
    requires Enabled(u, b, a)
    ensures a.Send? ==> !Wanted(u.plan, b.procs[a.id].pc).value.Close?
  {
  }

  lemma NewcomerStands<L>(u: Setup, b: World<L>, b': World<L>, a: Action)
    requires a.Arrive? ==> a.id in b'.procs && b'.procs[a.id].pc == Creating && b'.procs[a.id].heard == 0
    ensures a.Arrive? ==> ProcStands(u, b', a.id)
  {
    if a.Arrive? {
      assert AnswersTo(b', a.id)[..0] == [];
    }
  }

  lemma {:induction false} RunKeeps<L(!new)>(e: Engine<Sql, L, Schema>, u: Setup, b: World<L>, actions: seq<Action>)
    requires MigrationEngine(e, u.plan, u.benign) && WorldFits(u, b) && Run(e, u, b, actions).Some?
    ensures WorldFits(u, Run(e, u, b, actions).value)
    decreases |actions|
  {
    hide MigrationEngine, WorldFits;
    if actions != [] {
      if actions[0].Hear? {
        HearKeeps(u, b, actions[0].id);
      } else {
        JobKeeps(e, u, b, actions[0]);
      }
      hide Do, Enabled;
      RunKeeps(e, u, Do(e, u, b, actions[0]), actions[1..]);
    }
  }

  lemma NewWorldFits<L>(u: Setup)
    ensures WorldFits<L>(u, NewWorld(u.before))
  {
  }
}
