/** The worker serving migrating processes keeps the file, the ledger and the commits in step. */
module BootSteps {
  import opened Prelude
  import opened Engine
  import opened Script
  import opened Broker
  import opened BrokerInvariants
  import opened Migration
  import opened Boot

  // ---------- one more message ----------

  lemma UnheardStays(u: Setup, b: Books, sent: seq<Sent>, m: Sent, id: Session, v: nat)
    requires Unheard(u, b, sent, id, v)
    ensures Unheard(u, b, sent + [m], id, v)
  {
    hide Stand, Answers, IsAnswer;
    AnswersGrow(b.calls, sent, m, id);
    var before, after := Answers(b.calls, sent, id), Answers(b.calls, sent + [m], id);
    assert after[..b.heard[id]] == before[..b.heard[id]];
  }

  /** A message that reports no commit leaves the commits and their hearing as they are. */
  lemma NoCommitTold(u: Setup, b: Books, sent: seq<Sent>, m: Sent)
    requires HeardFits(u, b, sent) && m.id in b.heard
    requires IsAnswer(b.calls, m, m.id) ==> !Commits(StandOf(u, b.calls, sent, m.id), m.message.response)
    ensures HeardFits(u, b, sent + [m]) && Wins(u, b.calls, sent + [m]) == Wins(u, b.calls, sent)
  {
    WinsGrow(u, b.calls, sent, m);
    hide Wins, Unheard, StandOf, IsAnswer;
    forall win | win in Wins(u, b.calls, sent + [m])
      ensures win in b.returned || Unheard(u, b, sent + [m], win.0, win.1)
    {
      if Unheard(u, b, sent, win.0, win.1) {
        UnheardStays(u, b, sent, m, win.0, win.1);
      }
    }
  }

  /** The report of a commit to a process that has heard all earlier answers. */
  lemma CommitTold(u: Setup, b: Books, sent: seq<Sent>, m: Sent)
    requires HeardFits(u, b, sent) && IsAnswer(b.calls, m, m.id)
    requires m.id in b.heard && b.heard[m.id] == |Answers(b.calls, sent, m.id)|
    requires Commits(StandOf(u, b.calls, sent, m.id), m.message.response)
    ensures HeardFits(u, b, sent + [m])
  {
    var pc := StandOf(u, b.calls, sent, m.id);
    WinsGrow(u, b.calls, sent, m);
    assert Unheard(u, b, sent + [m], m.id, pc.v) by {
      AnswersGrow(b.calls, sent, m, m.id);
      var answers := Answers(b.calls, sent, m.id);
      assert (answers + [m.message.response])[..|answers|] == answers;
    }
    hide Wins, Unheard, StandOf, IsAnswer;
    forall win | win in Wins(u, b.calls, sent + [m])
      ensures win in b.returned || Unheard(u, b, sent + [m], win.0, win.1)
    {
      if win in Wins(u, b.calls, sent) && Unheard(u, b, sent, win.0, win.1) {
        UnheardStays(u, b, sent, m, win.0, win.1);
      }
    }
  }

  lemma CallTold(u: Setup, b: Books, sent: seq<Sent>, p: Pending<Sql>, r: Response)
    requires HeardFits(u, b, sent) && CallFits(u, b, sent, p)
    ensures HeardFits(u, b, sent + [Sent(p.reply, p.id, Replied(r))])
  {
    hide HeardFits, StandOf, Answers;
    var m := Sent(p.reply, p.id, Replied(r));
    if Commits(StandOf(u, b.calls, sent, p.id), r) {
      CommitTold(u, b, sent, m);
    } else {
      NoCommitTold(u, b, sent, m);
    }
  }

  /** The answer to a call, as its process and the others see it. */
  lemma AnswerSeen(u: Setup, calls: set<Ticket>, sent: seq<Sent>, p: Pending<Sql>, r: Response)
    requires p.reply in calls
    ensures var sent' := sent + [Sent(p.reply, p.id, Replied(r))];
            && StandOf(u, calls, sent', p.id) == AfterAnswer(u.plan, StandOf(u, calls, sent, p.id), r, u.benign)
            && |Answers(calls, sent', p.id)| == |Answers(calls, sent, p.id)| + 1
            && forall id | id != p.id :: Answers(calls, sent', id) == Answers(calls, sent, id)
  {
    var m := Sent(p.reply, p.id, Replied(r));
    StandGrows(u, Answers(calls, sent, p.id), r);
    hide Stand, Answers;
    forall id ensures id == p.id ==> Answers(calls, sent + [m], id) == Answers(calls, sent, id) + [r]
              ensures id != p.id ==> Answers(calls, sent + [m], id) == Answers(calls, sent, id)
    {
      AnswersGrow(calls, sent, m, id);
    }
  }

  /** Commits are counted as the ledger grows. */
  lemma WinsKeepUp(u: Setup, b: Books, sent: seq<Sent>, p: Pending<Sql>, r: Response, d: Schema, d': Schema)
    requires p.reply in b.calls && WinsFit(Wins(u, b.calls, sent), u.before.marks, d.marks) && u.before.marks <= d.marks
    requires MarksFit(StandOf(u, b.calls, sent, p.id), r, d, d')
    ensures WinsFit(Wins(u, b.calls, sent + [Sent(p.reply, p.id, Replied(r))]), u.before.marks, d'.marks)
  {
    var m := Sent(p.reply, p.id, Replied(r));
    var pc := StandOf(u, b.calls, sent, p.id);
    WinsGrow(u, b.calls, sent, m);
    var wins := Wins(u, b.calls, sent);
    hide Wins, StandOf;
    if Commits(pc, r) {
      OneMoreWin(wins, u.before.marks, d.marks, p.id, pc.v);
    }
  }

  lemma OneMoreWin(wins: seq<(Session, nat)>, before: set<nat>, marks: set<nat>, id: Session, v: nat)
    requires WinsFit(wins, before, marks) && before <= marks && v !in marks
    ensures WinsFit(wins + [(id, v)], before, marks + {v})
  {
    var wins' := wins + [(id, v)];
    forall k | k in marks + {v} && k !in before ensures exists i | 0 <= i < |wins'| :: wins'[i].1 == k {
      if k in marks {
        var i :| 0 <= i < |wins| && wins[i].1 == k;
        assert wins'[i].1 == k;
      } else {
        assert wins'[|wins|].1 == k;
      }
    }
  }

  // ---------- a call is served ----------

  /** A connection fits where its process stands. */
  lemma FitsBefore<L>(u: Setup, b: Books, w: W<Sql, L, Schema>, id: Session)
    requires BrokerFits(u, b, w) && id in w.sessions && MayRun(w, id)
    ensures ConnFits(u.plan, StandOf(u, b.calls, w.sent, id), w.sessions[id], w.db)
  {
    hide QueueFits, HeardFits, WinsFit, FileFits, EarlierDone, WorkingFits, Wins, StandOf;
    assert ProcFits(u, b, w.sent, w.db, w.holder, id);
  }

  /** What serving a call comes to: the connection and the file move, and one answer is sent. */
  ghost predicate Served1<L>(u: Setup, b: Books, w: W<Sql, L, Schema>, w': W<Sql, L, Schema>, p: Pending<Sql>,
                             r: Response) {
    && p.id in w.sessions && w'.sessions.Keys == w.sessions.Keys && w'.pending == w.pending
    && w'.sent == w.sent + [Sent(p.reply, p.id, Replied(r))]
    && (forall id | id in w.sessions && id != p.id :: w'.sessions[id] == w.sessions[id])
    && (w'.holder.None? || w'.holder == Some(p.id)) && Core(w')
    && ConnFits(u.plan, AfterAnswer(u.plan, StandOf(u, b.calls, w.sent, p.id), r, u.benign), w'.sessions[p.id], w'.db)
    && FileFits(u, w'.db) && MarksFit(StandOf(u, b.calls, w.sent, p.id), r, w.db, w'.db)
  }

  lemma ExecServes<L(!new)>(e: Engine<Sql, L, Schema>, u: Setup, b: Books, w: W<Sql, L, Schema>, p: Pending<Sql>,
                     held: bool)
    requires MigrationEngine(e, u.plan, u.benign) && BrokerFits(u, b, w) && MayRun(w, p.id)
    requires p.id in w.sessions && CallFits(u, b, w.sent, p) && p.req.Exec?
    ensures Served1(u, b, w, Dispatch(e, w, p, held), p, Execute(e, p.req.sql, [], w.sessions[p.id], w.db,
            false).response)
  {
    hide MigrationEngine, Execute, ConnFits, FileFits, MarksFit, StandOf, AfterAnswer, Core, Answers,
         QueueFits, ProcFits, HolderFits, WinsFit, HeardFits, Wins;
    FitsBefore(u, b, w, p.id);
    NoOtherLock(w, p.id);
    DispatchKeepsCore(e, w, p, held);
    ExecFits(e, u, StandOf(u, b.calls, w.sent, p.id), p.req.sql, w.sessions[p.id], w.db);
  }

  lemma PrepareServes<L>(e: Engine<Sql, L, Schema>, u: Setup, b: Books, w: W<Sql, L, Schema>, p: Pending<Sql>,
                         held: bool)
    requires BrokerFits(u, b, w) && MayRun(w, p.id) && p.id in w.sessions && CallFits(u, b, w.sent, p) && p.req.Prepare?
    ensures Served1(u, b, w, Dispatch(e, w, p, held), p, Prepared(e, p.req.sql, w.sessions[p.id], w.db, false))
  {
    hide Prepared, FileFits, StandOf, Core, Answers, QueueFits, ProcFits, HolderFits, WinsFit, HeardFits, Wins,
         EarlierDone;
    FitsBefore(u, b, w, p.id);
    NoOtherLock(w, p.id);
    DispatchKeepsCore(e, w, p, held);
    AskingFits(u, StandOf(u, b.calls, w.sent, p.id), Prepared(e, p.req.sql, w.sessions[p.id], w.db, false),
        w.sessions[p.id], w.db);
  }

  lemma AskingFits<L>(u: Setup, pc: PC, r: Response, conn: Conn<L, Schema>, db: Schema)
    requires pc.Asking? && ConnFits(u.plan, pc, conn, db)
    ensures ConnFits(u.plan, AfterAnswer(u.plan, pc, r, u.benign), conn, db) && MarksFit(pc, r, db, db)
  {
  }

  lemma DispatchServes<L(!new)>(e: Engine<Sql, L, Schema>, u: Setup, b: Books, w: W<Sql, L, Schema>, p: Pending<Sql>,
                         held: bool)
    returns (r: Response)
    requires MigrationEngine(e, u.plan, u.benign) && BrokerFits(u, b, w) && MayRun(w, p.id)
    requires p.id in w.sessions && CallFits(u, b, w.sent, p)
    ensures Served1(u, b, w, Dispatch(e, w, p, held), p, r)
  {
    assert !p.req.Close?;
    hide MigrationEngine, BrokerFits, CallFits, Served1, Dispatch, Execute, Prepared;
    if p.req.Exec? {
      ExecServes(e, u, b, w, p, held);
      r := Execute(e, p.req.sql, [], w.sessions[p.id], w.db, false).response;
    } else {
      PrepareServes(e, u, b, w, p, held);
      r := Prepared(e, p.req.sql, w.sessions[p.id], w.db, false);
    }
  }

  lemma QueueStays(u: Setup, b: Books, sent: seq<Sent>, p: Pending<Sql>, r: Response, pending: seq<Pending<Sql>>,
                   live: set<Session>)
    requires QueueFits(u, b, sent, pending, live) && p.reply in b.calls
    requires forall i | 0 <= i < |pending| :: pending[i].id != p.id
    ensures QueueFits(u, b, sent + [Sent(p.reply, p.id, Replied(r))], pending, live)
  {
    AnswerSeen(u, b.calls, sent, p, r);
    hide Answers, Stand;
  }

  lemma ProcsStay<L>(u: Setup, b: Books, w: W<Sql, L, Schema>, w': W<Sql, L, Schema>, p: Pending<Sql>, r: Response)
    requires BrokerFits(u, b, w) && MayRun(w, p.id) && CallFits(u, b, w.sent, p) && Served1(u, b, w, w', p, r)
    ensures forall id | id in w'.sessions :: ProcFits(u, b, w'.sent, w'.db, w'.holder, id)
    ensures HolderFits(u, b, w')
  {
    AnswerSeen(u, b.calls, w.sent, p, r);
    hide Answers, Stand, FileFits, WinsFit, HeardFits, QueueFits, Wins, AfterAnswer, WorkingFits;
    forall id | id in w'.sessions ensures ProcFits(u, b, w'.sent, w'.db, w'.holder, id) {
      assert ProcFits(u, b, w.sent, w.db, w.holder, id);
      if id != p.id {
        assert StandOf(u, b.calls, w'.sent, id) == StandOf(u, b.calls, w.sent, id);
      }
    }
  }

  lemma DispatchFits<L(!new)>(e: Engine<Sql, L, Schema>, u: Setup, b: Books, w: W<Sql, L, Schema>, p: Pending<Sql>,
                       held: bool)
    requires MigrationEngine(e, u.plan, u.benign) && BrokerFits(u, b, w) && MayRun(w, p.id)
    requires p.id in w.sessions && CallFits(u, b, w.sent, p) && forall i | 0 <= i < |w.pending| ::
             w.pending[i].id != p.id
    ensures BrokerFits(u, b, Dispatch(e, w, p, held)) && w.db.marks <= Dispatch(e, w, p, held).db.marks
    ensures Dispatch(e, w, p, held).pending == w.pending && Dispatch(e, w, p, held).sessions.Keys == w.sessions.Keys
  {
    var r := DispatchServes(e, u, b, w, p, held);
    var w' := Dispatch(e, w, p, held);
    hide Dispatch, MigrationEngine;
    QueueStays(u, b, w.sent, p, r, w.pending, w.sessions.Keys);
    ProcsStay(u, b, w, w', p, r);
    WinsKeepUp(u, b, w.sent, p, r, w.db, w'.db);
    CallTold(u, b, w.sent, p, r);
    hide QueueFits, ProcFits, HolderFits, WinsFit, HeardFits, CallFits, ConnFits, Wins, Core, StandOf;
  }

  // ---------- sessions come and go ----------

  /** Messages to a session that is no longer live, reporting no commit. */
  lemma RefusalTold(u: Setup, b: Books, sent: seq<Sent>, m: Sent)
    requires HeardFits(u, b, sent) && m.id in b.heard
    requires IsAnswer(b.calls, m, m.id) ==> m.message.response.fault.Some?
    ensures HeardFits(u, b, sent + [m]) && Wins(u, b.calls, sent + [m]) == Wins(u, b.calls, sent)
    ensures forall id | id != m.id || !IsAnswer(b.calls, m, m.id) ::
            Answers(b.calls, sent + [m], id) == Answers(b.calls, sent, id)
  {
    NoCommitTold(u, b, sent, m);
    hide HeardFits, Wins, Answers;
    forall id | id != m.id || !IsAnswer(b.calls, m, m.id)
      ensures Answers(b.calls, sent + [m], id) == Answers(b.calls, sent, id)
    {
      AnswersGrow(b.calls, sent, m, id);
    }
  }

  lemma {:induction false} RefusalsTold(u: Setup, b: Books, sent: seq<Sent>, pending: seq<Pending<Sql>>, gone: Session)
    requires HeardFits(u, b, sent) && gone in b.heard
    ensures var sent' := sent + Refusals(pending, gone);
            && HeardFits(u, b, sent') && Wins(u, b.calls, sent') == Wins(u, b.calls, sent)
            && forall id | id != gone :: Answers(b.calls, sent', id) == Answers(b.calls, sent, id)
    decreases pending
  {
    hide HeardFits, Wins, Answers;
    if pending == [] {
      NoSuffix(sent);
    } else if pending[0].id == gone {
      var m := Sent(pending[0].reply, gone, Replied(ErrorResponse(true, SessionClosed)));
      RefusalTold(u, b, sent, m);
      RefusalsTold(u, b, sent + [m], pending[1..], gone);
      Assoc(sent, [m], Refusals(pending[1..], gone));
    } else {
      RefusalsTold(u, b, sent, pending[1..], gone);
      NoPrefix(Refusals(pending[1..], gone));
    }
  }

  /** Whoever keeps its answers, its connection and the holdership keeps its fit. */
  lemma SameAnswersFit<L>(u: Setup, b: Books, w: W<Sql, L, Schema>, w': W<Sql, L, Schema>, live: set<Session>)
    requires BrokerFits(u, b, w) && live <= w.sessions.Keys && Core(w') && w'.db == w.db
    requires w'.sessions.Keys == live && forall id | id in live :: w'.sessions[id] == w.sessions[id]
    requires forall id | id in live :: Answers(b.calls, w'.sent, id) == Answers(b.calls, w.sent, id)
    requires QueueFits(u, b, w.sent, w'.pending, live)
    requires HeardFits(u, b, w'.sent) && Wins(u, b.calls, w'.sent) == Wins(u, b.calls, w.sent)
    ensures BrokerFits(u, b, w')
  {
    hide Answers, Stand, FileFits, WinsFit, HeardFits, Wins, WorkingFits, EarlierDone;
    forall id | id in w'.sessions ensures ProcFits(u, b, w'.sent, w'.db, w'.holder, id) {
      assert ProcFits(u, b, w.sent, w.db, w.holder, id);
    }
    assert QueueFits(u, b, w'.sent, w'.pending, live);
  }

  lemma {:induction false} WithoutDistinct(pending: seq<Pending<Sql>>, id: Session)
    requires forall i, j | 0 <= i < j < |pending| :: pending[i].id != pending[j].id
    ensures forall i, j | 0 <= i < j < |Without(pending, id)| ::
            Without(pending, id)[i].id != Without(pending, id)[j].id
  {
    if pending != [] {
      var rest, kept := pending[1..], Without(pending[1..], id);
      WithoutDistinct(rest, id);
      WithoutKeeps(rest, id);
      NoPrefix(kept);
      forall j | 0 <= j < |kept| ensures kept[j].id != pending[0].id {
        assert kept[j] in rest;
      }
    }
  }

  lemma QueueShrinks(u: Setup, b: Books, sent: seq<Sent>, pending: seq<Pending<Sql>>, live: set<Session>, id: Session)
    requires QueueFits(u, b, sent, pending, live)
    ensures QueueFits(u, b, sent, Without(pending, id), live - {id})
  {
    hide CallFits, Without;
    WithoutDistinct(pending, id);
    WithoutKeeps(pending, id);
    var kept := Without(pending, id);
    forall i | 0 <= i < |kept| ensures kept[i].id in live - {id} && CallFits(u, b, sent, kept[i]) {
      assert kept[i] in kept;
      assert kept[i] in pending;
    }
  }

  lemma DropFits<L>(u: Setup, b: Books, w: W<Sql, L, Schema>, id: Session)
    requires BrokerFits(u, b, w) && id in w.sessions
    ensures BrokerFits(u, b, DropSession(w, id))
  {
    hide QueueFits, HeardFits, Wins, Answers, Core, HolderFits, FileFits, WinsFit, Without, Refusals, EarlierDone,
         Stand;
    assert ProcFits(u, b, w.sent, w.db, w.holder, id);
    hide ProcFits;
    DropKeepsCore(w, id);
    RefusalsTold(u, b, w.sent, w.pending, id);
    QueueShrinks(u, b, w.sent, w.pending, w.sessions.Keys, id);
    var w' := DropSession(w, id);
    SameAnswersFit(u, b, w, w', w'.sessions.Keys);
  }

  lemma {:induction false} PumpFits<L(!new)>(e: Engine<Sql, L, Schema>, u: Setup, b: Books, w: W<Sql, L, Schema>)
    requires MigrationEngine(e, u.plan, u.benign) && BrokerFits(u, b, w)
    ensures BrokerFits(u, b, Pump(e, w)) && w.db.marks <= Pump(e, w).db.marks
    decreases |w.pending|
  {
    hide Dispatch, MigrationEngine, CallFits, Core, ProcFits, HolderFits, FileFits, WinsFit, HeardFits, Wins;
    if w.holder.None? && w.pending != [] {
      var p, rest := w.pending[0], w.(pending := w.pending[1..]);
      PoppedFits(u, b, w);
      DispatchShrinksQueue(e, rest, p, false);
      DispatchFits(e, u, b, rest, p, false);
      PumpFits(e, u, b, Dispatch(e, rest, p, false));
    }
  }

  lemma PoppedFits<L>(u: Setup, b: Books, w: W<Sql, L, Schema>)
    requires BrokerFits(u, b, w) && w.pending != []
    ensures BrokerFits(u, b, w.(pending := w.pending[1..]))
    ensures CallFits(u, b, w.sent, w.pending[0]) && w.pending[0].id in w.sessions
    ensures forall i | 0 <= i < |w.pending[1..]| :: w.pending[1..][i].id != w.pending[0].id
  {
    hide CallFits, ProcFits, FileFits, WinsFit, HeardFits, Wins, StandOf;
  }

  /** A message that is no answer to a call, sent to anybody. */
  lemma NoticeFits<L>(u: Setup, b: Books, w: W<Sql, L, Schema>, m: Sent)
    requires BrokerFits(u, b, w) && m.id in b.heard && !IsAnswer(b.calls, m, m.id) && NobodyBusy([m])
    ensures BrokerFits(u, b, w.(sent := w.sent + [m]))
  {
    RefusalTold(u, b, w.sent, m);
    hide HeardFits, Wins, Answers, ProcFits, HolderFits, FileFits, WinsFit, QueueFits;
    assert Core(w.(sent := w.sent + [m])) by {
      assert NobodyBusy(w.sent) && [m][0] == m;
    }
    hide Core;
    SameAnswersFit(u, b, w, w.(sent := w.sent + [m]), w.sessions.Keys);
  }
}
