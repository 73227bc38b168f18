/** Migrating processes over the whole system: with the channel between a process and the worker, and
    answers that are written some time after they are given, every run is a run of `BootRuns`. */
module BootSystem {
  import opened Prelude
  import opened Engine
  import opened Broker
  import opened Migration
  import opened Boot
  import opened BootRuns
  import D = Discipline
  import I = BrokerInvariants
  import O = BootOutcome
  import T = Clients
  import BT = BootTheorems

  type System<L> = T.Sys<Sql, L, Schema>

  /** What a step of the system is to the processes: a job handled, or an answer written. */
  function StepOf<L>(s: System<L>, a: T.Action<Sql>): Option<Action>
    requires T.Enabled(s, a)
  {
    if a.Work? then Some(ActionOf(s.chan[0]))
    else if a.Write? && a.ok && !s.clients[a.id].pc.closing then Some(Action.Hear(a.id))
    else None
  }

  function ActionOf(job: Job<Sql>): Action {
    match job
    case Open(id, _, opens) => Arrive(id, opens)
    case Drop(id, _) => Leave(id, false)
    case Req(id, req, _) => if req.Close? then Leave(id, true) else Action.Send(id)
  }

  function Track<L>(e: Engine<Sql, L, Schema>, u: Setup, b: World<L>, step: Option<Action>): World<L> {
    if step.Some? && Enabled(u, b, step.value) then Do(e, u, b, step.value) else b
  }

  /** Every request a client sends is the one its process wants, or a Close. `b` holds where the
      processes stand. */
  ghost predicate Migrates<L>(e: Engine<Sql, L, Schema>, u: Setup, b: World<L>, s: System<L>,
                              actions: seq<T.Action<Sql>>)
    decreases |actions|
  {
    actions == []
    || (T.Enabled(s, actions[0]) && SendsWanted(u, b, actions[0])
        && Migrates(e, u, Track(e, u, b, StepOf(s, actions[0])), T.Do(e, s, actions[0]), actions[1..]))
  }

  predicate SendsWanted<L>(u: Setup, b: World<L>, a: T.Action<Sql>) {
    a.Receive? && !a.req.Close? ==> a.id in b.procs && Wanted(u.plan, b.procs[a.id].pc) == Some(a.req)
  }

  // ---------- answers ----------

  lemma {:induction false} AnswersConcat(calls: set<Ticket>, a: seq<Sent>, b: seq<Sent>, id: Session)
    ensures Answers(calls, a + b, id) == Answers(calls, a, id) + Answers(calls, b, id)
    decreases |b|
  {
    if b == [] {
      NoSuffix(a);
      NoSuffix(Answers(calls, a, id));
    } else {
      var front, m := b[..|b| - 1], b[|b| - 1];
      assert b == front + [m];
      Assoc(a, front, [m]);
      AnswersConcat(calls, a, front, id);
      AnswersGrow(calls, a + front, m, id);
      if IsAnswer(calls, m, id) {
        Assoc(Answers(calls, a, id), Answers(calls, front, id), [m.message.response]);
      }
    }
  }

  /** Two sets of reply channels that agree on the messages for a process give the same answers. */
  lemma {:induction false} AnswersAgree(calls: set<Ticket>, calls': set<Ticket>, sent: seq<Sent>, id: Session)
    requires forall m | m in sent && m.id == id && m.message.Replied? :: m.reply in calls <==> m.reply in calls'
    ensures Answers(calls, sent, id) == Answers(calls', sent, id)
  {
    if sent != [] {
      AnswersAgree(calls, calls', sent[..|sent| - 1], id);
      assert sent[|sent| - 1] in sent;
    }
  }

  lemma {:induction false} AnswerIsListed(calls: set<Ticket>, sent: seq<Sent>, i: nat)
    requires i < |sent| && IsAnswer(calls, sent[i], sent[i].id)
    ensures sent[i].message.response in Answers(calls, sent, sent[i].id)
  {
    if i < |sent| - 1 {
      AnswerIsListed(calls, sent[..|sent| - 1], i);
    }
  }

  /** The answers a process has not heard. */
  function Unheard<L>(b: World<L>, id: Session): seq<Response>
    requires id in b.procs
  {
    var answers := AnswersTo(b, id);
    if b.procs[id].heard <= |answers| then answers[b.procs[id].heard..] else []
  }

  // ---------- where clients and processes stand ----------

  /** What a client thread's state says of the answers its process has not heard. */
  ghost predicate ClientStands<L>(b: World<L>, pc: T.PC, id: Session)
    requires id in b.procs
  {
    match pc
    case Waiting(t, closing) => Unheard(b, id) == if closing then [] else Answers({t}, b.w.sent, id)
    case Answering(r, closing) => !closing ==> Unheard(b, id) == [r]
    case Opening(_) => Unheard(b, id) == []
    case Greeting => Unheard(b, id) == []
    case Reading => Unheard(b, id) == []
    case _ => true
  }

  ghost predicate JobStands<L>(u: Setup, b: World<L>, job: Job<Sql>) {
    if job.Open? then job.id !in b.procs
    else job.Req? && !job.req.Close? ==> job.id in b.procs && Wanted(u.plan, b.procs[job.id].pc) == Some(job.req)
  }

  ghost predicate Numbered<L>(b: World<L>, s: System<L>) {
    && s.tickets == b.tickets + |s.chan|
    && forall i | 0 <= i < |s.chan| :: s.chan[i].reply == b.tickets + i
  }

  ghost predicate ClientsStand<L>(b: World<L>, clients: map<Session, T.Client>) {
    forall id | id in b.procs && b.procs[id].alive :: id in clients && ClientStands(b, clients[id].pc, id)
  }

  ghost predicate ChannelStands<L>(u: Setup, b: World<L>, chan: seq<Job<Sql>>) {
    forall i | 0 <= i < |chan| :: JobStands(u, b, chan[i])
  }

  /** The processes as `BootRuns` has them, and the system. */
  ghost predicate Related<L>(u: Setup, b: World<L>, s: System<L>) {
    && T.SysInv(s) && WorldFits(u, b) && b.w == s.w && Numbered(b, s)
    && b.procs.Keys <= s.clients.Keys
    && ClientsStand(b, s.clients) && ChannelStands(u, b, s.chan)
  }

  // ---------- a client thread moves ----------

  /** Nobody has answered on a reply channel not handed out yet. */
  lemma NoAnswerYet<L>(s: System<L>, t: Ticket, id: Session)
    requires T.SysInv(s) && t >= s.tickets
    ensures Answers({t}, s.w.sent, id) == []
  {
    forall m | m in s.w.sent ensures m.reply != t {
      var i :| 0 <= i < |s.w.sent| && s.w.sent[i] == m;
      T.SentTicketIsOld(s, i);
    }
    hide T.SysInv;
    AnswersAgree({t}, {}, s.w.sent, id);
    NoCallsNoAnswers(s.w.sent, id);
  }

  lemma {:induction false} NoCallsNoAnswers(sent: seq<Sent>, id: Session)
    ensures Answers({}, sent, id) == []
  {
    if sent != [] {
      NoCallsNoAnswers(sent[..|sent| - 1], id);
    }
  }

  /** The client's next state says of the unheard answers what its last one did. */
  lemma ClientMoves<L>(b: World<L>, clients: map<Session, T.Client>, clients': map<Session, T.Client>, id: Session)
    requires ClientsStand(b, clients) && clients'.Keys == clients.Keys + {id}
    requires forall k | k in clients && k != id :: clients'[k] == clients[k]
    requires id in b.procs && b.procs[id].alive ==> ClientStands(b, clients'[id].pc, id)
    ensures ClientsStand(b, clients')
  {
    hide ClientStands;
  }

  /** A client thread sends a job. */
  lemma SubmitRelated<L>(u: Setup, b: World<L>, s: System<L>, s': System<L>, id: Session, job: Job<Sql>)
    requires Related(u, b, s) && T.SysInv(s') && s'.w == s.w && s'.chan == s.chan + [job]
    requires s'.tickets == s.tickets + 1 && job.reply == s.tickets && JobStands(u, b, job)
    requires s'.clients.Keys == s.clients.Keys + {id}
    requires forall k | k in s.clients && k != id :: s'.clients[k] == s.clients[k]
    requires id in b.procs && b.procs[id].alive ==> ClientStands(b, s'.clients[id].pc, id)
    ensures Related(u, b, s')
  {
    hide T.SysInv, WorldFits, JobStands, ClientStands;
    ClientMoves(b, s.clients, s'.clients, id);
  }

  /** The message a client hears is the answer its process has not heard. */
  lemma HearingStands<L>(u: Setup, b: World<L>, s: System<L>, id: Session, i: nat)
    requires Related(u, b, s) && T.Enabled(s, T.Action.Hear(id, i)) && id in b.procs && b.procs[id].alive
    ensures ClientStands(b, T.Heard(s.clients[id], s.w.sent[i].message).pc, id)
  {
    hide T.SysInv, WorldFits, Answers, AnswersTo;
    var c, m := s.clients[id], s.w.sent[i];
    MailOf(s, id, i);
    BT.AliveFits(u, b, id);
    if c.pc.Waiting? && !c.pc.closing {
      assert Unheard(b, id) == Answers({c.pc.t}, s.w.sent, id);
      AnswerIsListed({c.pc.t}, s.w.sent, i);
    }
  }

  lemma MailOf<L>(s: System<L>, id: Session, i: nat)
    requires T.SysInv(s) && T.Enabled(s, T.Action.Hear(id, i))
    ensures var m, pc := s.w.sent[i], s.clients[id].pc;
            m.id == id && (if pc.Opening? then m.message.Opened? else if pc.Waiting? then m.message.Replied?
                           else pc.Leaving? && m.message.Dropped?)
  {
    assert T.SentFits(s.w.sent[i], s.clients, s.w.sessions.Keys, s.w.holder);
  }

  lemma AcceptRelated<L>(e: Engine<Sql, L, Schema>, u: Setup, b: World<L>, s: System<L>, opens: bool)
    requires Related(u, b, s)
    ensures Related(u, b, T.Do(e, s, T.Accept(opens)))
  {
    T.StepKeeps(e, s, T.Accept(opens));
    NewClient(u, b, s);
    hide T.SysInv, WorldFits, ClientStands;
    SubmitRelated(u, b, s, T.Do(e, s, T.Accept(opens)), s.sessions, Job.Open(s.sessions, s.tickets, opens));
  }

  lemma NewClient<L>(u: Setup, b: World<L>, s: System<L>)
    requires Related(u, b, s)
    ensures s.sessions !in s.clients && s.sessions !in b.procs
  {
    hide WorldFits;
  }

  lemma RelatedMeans<L>(u: Setup, b: World<L>, s: System<L>)
    requires Related(u, b, s)
    ensures T.SysInv(s) && WorldFits(u, b) && b.w == s.w
    ensures forall id | id in b.procs && b.procs[id].alive :: id in s.clients && ClientStands(b, s.clients[id].pc, id)
  {
    hide T.SysInv, WorldFits, ClientStands;
  }

  lemma ReceiveRelated<L>(e: Engine<Sql, L, Schema>, u: Setup, b: World<L>, s: System<L>, a: T.Action<Sql>)
    requires Related(u, b, s) && T.Enabled(s, a) && a.Receive? && SendsWanted(u, b, a)
    ensures Related(u, b, T.Do(e, s, a))
  {
    hide T.SysInv, WorldFits, Related, Unheard, Answers, Wanted;
    RelatedMeans(u, b, s);
    T.StepKeeps(e, s, a);
    NoAnswerYet(s, s.tickets, a.id);
    var s' := T.Do(e, s, a);
    if a.id in b.procs && b.procs[a.id].alive {
      assert ClientStands(b, s'.clients[a.id].pc, a.id);
    }
    hide ClientStands;
    SubmitRelated(u, b, s, s', a.id, Req(a.id, a.req, s.tickets));
  }

  /** A client thread moves without sending a job. */
  lemma MoveRelated<L>(u: Setup, b: World<L>, s: System<L>, s': System<L>, id: Session)
    requires Related(u, b, s) && T.SysInv(s') && s'.w == s.w && s'.chan == s.chan && s'.tickets == s.tickets
    requires id in s.clients && s'.clients.Keys == s.clients.Keys
    requires forall k | k in s.clients && k != id :: s'.clients[k] == s.clients[k]
    requires id in b.procs && b.procs[id].alive ==> ClientStands(b, s'.clients[id].pc, id)
    ensures Related(u, b, s')
  {
    hide T.SysInv, WorldFits, JobStands, ClientStands;
    ClientMoves(b, s.clients, s'.clients, id);
  }

  lemma HearRelated<L>(e: Engine<Sql, L, Schema>, u: Setup, b: World<L>, s: System<L>, a: T.Action<Sql>)
    requires Related(u, b, s) && T.Enabled(s, a) && a.Hear?
    ensures Related(u, b, T.Do(e, s, a))
  {
    hide T.SysInv, Related, ClientStands, T.Heard;
    T.StepKeeps(e, s, a) by { RelatedMeans(u, b, s); }
    if a.id in b.procs && b.procs[a.id].alive {
      HearingStands(u, b, s, a.id, a.i);
    }
    MoveRelated(u, b, s, T.Do(e, s, a), a.id);
  }

  /** A greeting, a disconnection, or an answer that is not written or not one to a call. */
  lemma LeavingRelated<L>(e: Engine<Sql, L, Schema>, u: Setup, b: World<L>, s: System<L>, a: T.Action<Sql>)
    requires Related(u, b, s) && T.Enabled(s, a) && (a.Greet? || a.Disconnect? || a.Write?) && StepOf(s, a).None?
    ensures Related(u, b, T.Do(e, s, a))
  {
    hide T.SysInv, WorldFits, Related, Unheard, Answers;
    RelatedMeans(u, b, s);
    T.StepKeeps(e, s, a);
    var s' := T.Do(e, s, a);
    if a.id in b.procs && b.procs[a.id].alive {
      assert ClientStands(b, s'.clients[a.id].pc, a.id);
    }
    hide ClientStands;
    if a.Disconnect? || (!a.ok && !(a.Write? && s.clients[a.id].pc.closing)) {
      SubmitRelated(u, b, s, s', a.id, Job.Drop(a.id, s.tickets));
    } else {
      MoveRelated(u, b, s, s', a.id);
    }
  }

  /** Every step that is nothing to the processes. */
  lemma QuietStep<L>(e: Engine<Sql, L, Schema>, u: Setup, b: World<L>, s: System<L>, a: T.Action<Sql>)
    requires Related(u, b, s) && T.Enabled(s, a) && StepOf(s, a).None? && SendsWanted(u, b, a)
    ensures Related(u, b, T.Do(e, s, a))
  {
    hide Related, T.Do, SendsWanted;
    match a {
      case Accept(opens) => AcceptRelated(e, u, b, s, opens);
      case Receive(_, _) => ReceiveRelated(e, u, b, s, a);
      case Hear(_, _) => HearRelated(e, u, b, s, a);
      case _ => LeavingRelated(e, u, b, s, a);
    }
  }

  // ---------- an answer is written ----------

  lemma WrittenIsHeard<L>(u: Setup, b: World<L>, s: System<L>, a: T.Action<Sql>)
    requires Related(u, b, s) && T.Enabled(s, a) && StepOf(s, a).Some? && a.Write?
    ensures Enabled(u, b, Action.Hear(a.id)) && |Unheard(b, a.id)| == 1
  {
    hide T.SysInv, WorldFits, Related, Answers;
    RelatedMeans(u, b, s);
    WriterLives(s, a);
    LiveProcs(u, b);
    HeardInside(u, b, a.id);
    assert ClientStands(b, s.clients[a.id].pc, a.id);
  }

  lemma WriterLives<L>(s: System<L>, a: T.Action<Sql>)
    requires T.SysInv(s) && T.Enabled(s, a) && StepOf(s, a).Some? && a.Write?
    ensures a.id in s.w.sessions
  {
    T.FitOf(s, a.id);
    hide T.SysInv;
  }

  lemma HeardStands<L>(u: Setup, b: World<L>, s: System<L>, id: Session, clients: map<Session, T.Client>)
    requires Enabled(u, b, Action.Hear(id)) && |Unheard(b, id)| == 1 && ClientsStand(b, s.clients)
    requires id in s.clients && clients.Keys == s.clients.Keys && clients[id].pc == T.Reading
    requires forall k | k in s.clients && k != id :: clients[k] == s.clients[k]
    ensures ClientsStand(Heard(u, b, id), clients)
  {
    hide Answers, AfterAnswer;
    var b' := Heard(u, b, id);
    forall k | k in b'.procs && b'.procs[k].alive ensures k in clients && ClientStands(b', clients[k].pc, k) {
      assert k in s.clients && ClientStands(b, s.clients[k].pc, k);
      assert AnswersTo(b', k) == AnswersTo(b, k);
    }
  }

  lemma WriteRelated<L>(e: Engine<Sql, L, Schema>, u: Setup, b: World<L>, s: System<L>, a: T.Action<Sql>)
    requires Related(u, b, s) && T.Enabled(s, a) && StepOf(s, a).Some? && a.Write?
    ensures Enabled(u, b, Action.Hear(a.id)) && Related(u, Do(e, u, b, Action.Hear(a.id)), T.Do(e, s, a))
  {
    hide T.SysInv, WorldFits, Unheard, ClientsStand, Answers, AnswersTo, AfterAnswer, JobStands;
    WrittenIsHeard(u, b, s, a);
    T.StepKeeps(e, s, a);
    BT.HearKeeps(u, b, a.id);
    T.IdleHasNoJob(s, a.id);
    var b', s' := Heard(u, b, a.id), T.Do(e, s, a);
    HeardStands(u, b, s, a.id, s'.clients);
    forall i | 0 <= i < |s.chan| ensures JobStands(u, b', s.chan[i]) {
      JobStays(u, b, b', s.chan[i]);
    }
  }

  /** What is known of a job on its way, its process not having moved. */
  lemma JobStays<L>(u: Setup, b: World<L>, b': World<L>, job: Job<Sql>)
    requires JobStands(u, b, job) && (job.id in b'.procs <==> job.id in b.procs)
    requires job.id in b.procs ==> b'.procs[job.id].pc == b.procs[job.id].pc
    ensures JobStands(u, b', job)
  {
    hide Wanted;
  }

  // ---------- a job is handled ----------

  lemma AllHeard<L>(u: Setup, b: World<L>, s: System<L>)
    requires Related(u, b, s) && s.chan != [] && s.chan[0].Req? && !s.chan[0].req.Close?
    requires s.chan[0].id in b.procs && b.procs[s.chan[0].id].alive
    ensures b.procs[s.chan[0].id].heard == |AnswersTo(b, s.chan[0].id)|
  {
    hide T.SysInv, WorldFits, Related, Answers;
    var job := s.chan[0];
    RelatedMeans(u, b, s);
    FrontWaits(s);
    HeardInside(u, b, job.id);
    AnswersAgree({job.reply}, {}, s.w.sent, job.id);
    NoCallsNoAnswers(s.w.sent, job.id);
    assert ClientStands(b, s.clients[job.id].pc, job.id);
  }

  lemma FrontWaits<L>(s: System<L>)
    requires T.SysInv(s) && s.chan != [] && s.chan[0].Req?
    ensures s.chan[0].id in s.clients
    ensures s.clients[s.chan[0].id].pc == T.Waiting(s.chan[0].reply, s.chan[0].req.Close?)
    ensures forall m | m in s.w.sent :: m.reply != s.chan[0].reply
  {
    T.FrontIsAlone(s);
    assert T.JobFits(s.chan[0], s.clients, s.w.sessions.Keys);
  }

  lemma JobIsAction<L>(u: Setup, b: World<L>, s: System<L>)
    requires Related(u, b, s) && s.chan != []
    ensures var a := ActionOf(s.chan[0]); Enabled(u, b, a) && !a.Hear? && JobOf(u, b, a) == s.chan[0]
  {
    hide T.SysInv, WorldFits, Related, Answers, Wanted, I.OpensFresh;
    var job := s.chan[0];
    RelatedMeans(u, b, s);
    FrontStands(u, b, s);
    T.FrontIsAdmissible(s);
    LiveProcs(u, b);
    if job.Req? && !job.req.Close? {
      AllHeard(u, b, s);
    }
  }

  lemma FrontStands<L>(u: Setup, b: World<L>, s: System<L>)
    requires Related(u, b, s) && s.chan != []
    ensures JobStands(u, b, s.chan[0]) && s.chan[0].reply == b.tickets
  {
    hide T.SysInv, WorldFits, JobStands;
  }

  lemma LiveProcs<L>(u: Setup, b: World<L>)
    requires WorldFits(u, b)
    ensures forall id :: id in b.w.sessions <==> id in b.procs && b.procs[id].alive
  {
    hide BrokerFits, ReturnsFit, TicketsFit, I.Inv;
  }

  /** New messages, for a process whose connection stays open, go to a client that waits for them. */
  lemma NewAnswer<L>(u: Setup, b: World<L>, s: System<L>, w': W<Sql, L, Schema>, m: Sent, calls: set<Ticket>)
    requires Related(u, b, s) && s.chan != [] && D.Orderly(s.w, s.chan[0], w') && m in w'.sent[|s.w.sent|..]
    requires b.calls <= calls && (s.chan[0].Req? && !s.chan[0].req.Close? ==> s.chan[0].reply in calls)
    requires m.message.Replied? && !(s.chan[0].Req? && s.chan[0].req.Close? && m.id == s.chan[0].id)
    ensures m.id in s.clients && s.clients[m.id].pc == T.Waiting(m.reply, false) && m.reply in calls
  {
    var job := s.chan[0];
    var i :| |s.w.sent| <= i < |w'.sent| && w'.sent[i] == m;
    assert T.JobFits(job, s.clients, s.w.sessions.Keys);
    if !D.AnswersJob(m, job, w'.holder) {
      var k :| 0 <= k < |s.w.pending| && D.Answers(m, s.w.pending[k], w'.holder);
      assert T.QueuedFits(s.w.pending[k], s.clients);
      hide T.SysInv, D.Orderly;
      QueuedIsCall(u, b, k);
    }
  }

  lemma QueuedIsCall<L>(u: Setup, b: World<L>, k: nat)
    requires WorldFits(u, b) && k < |b.w.pending|
    ensures b.w.pending[k].reply in b.calls
  {
    hide ReturnsFit, TicketsFit, ProcStands, I.Inv, HolderFits, FileFits, WinsFit, HeardFits, ProcFits, Wins;
    assert CallFits(u, BooksOf(b), b.w.sent, b.w.pending[k]);
  }

  /** What a process has not heard, after more messages. */
  lemma UnheardGrows<L>(b: World<L>, b': World<L>, k: Session, more: seq<Sent>)
    requires k in b.procs && k in b'.procs && b'.procs[k].heard == b.procs[k].heard <= |AnswersTo(b, k)|
    requires b'.w.sent == b.w.sent + more
    requires b'.calls == b.calls || b'.calls == b.calls + {b.tickets}
    requires forall i | 0 <= i < |b.w.sent| :: b.w.sent[i].reply < b.tickets
    ensures Unheard(b', k) == Unheard(b, k) + Answers(b'.calls, more, k)
  {
    hide Answers;
    AnswersConcat(b'.calls, b.w.sent, more, k);
    forall m | m in b.w.sent ensures m.reply in b'.calls <==> m.reply in b.calls {
      var i :| 0 <= i < |b.w.sent| && b.w.sent[i] == m;
    }
    AnswersAgree(b.calls, b'.calls, b.w.sent, k);
  }

  /** A client whose process was there before stands where it stood, with the new answers. */
  lemma StandsAfter<L>(b: World<L>, b': World<L>, pc: T.PC, k: Session, more: seq<Sent>)
    requires k in b.procs && k in b'.procs && b'.procs[k].heard == b.procs[k].heard <= |AnswersTo(b, k)|
    requires b'.w.sent == b.w.sent + more && ClientStands(b, pc, k)
    requires b'.calls == b.calls || b'.calls == b.calls + {b.tickets}
    requires forall i | 0 <= i < |b.w.sent| :: b.w.sent[i].reply < b.tickets
    requires forall m | m in more && m.id == k && m.message.Replied? ::
               pc == T.Waiting(m.reply, false) && m.reply in b'.calls
    ensures ClientStands(b', pc, k)
  {
    hide Answers, AnswersTo, Unheard;
    UnheardGrows(b, b', k, more);
    NoSuffix(Unheard(b, k));
    if pc.Waiting? && !pc.closing {
      AnswersAgree({pc.t}, b'.calls, more, k);
      AnswersConcat({pc.t}, b.w.sent, more, k);
    } else {
      AnswersAgree(b'.calls, {}, more, k);
      NoCallsNoAnswers(more, k);
    }
  }

  /** A new process has no answers. */
  lemma NewcomerWaits<L>(u: Setup, b: World<L>, b': World<L>, k: Session, more: seq<Sent>)
    requires WorldFits(u, b) && k !in b.procs && k in b'.procs && b'.procs[k].heard == 0
    requires b'.w.sent == b.w.sent + more && forall m | m in more && m.id == k :: !m.message.Replied?
    ensures Unheard(b', k) == []
  {
    hide ReturnsFit, TicketsFit, ProcStands, I.Inv, HolderFits, FileFits, WinsFit, QueueFits, ProcFits, Wins;
    assert HeardFits(u, BooksOf(b), b.w.sent);
    forall m | m in b.w.sent ensures m.id in b.procs {
      var i :| 0 <= i < |b.w.sent| && b.w.sent[i] == m;
      assert b.w.sent[i].id in BooksOf(b).heard;
    }
    AnswersAgree(b'.calls, {}, b'.w.sent, k);
    NoCallsNoAnswers(b'.w.sent, k);
    hide Answers;
  }

  lemma WorkClientsStand<L>(e: Engine<Sql, L, Schema>, u: Setup, b: World<L>, s: System<L>)
    requires Related(u, b, s) && s.chan != [] && Enabled(u, b, ActionOf(s.chan[0]))
    requires !ActionOf(s.chan[0]).Hear? && JobOf(u, b, ActionOf(s.chan[0])) == s.chan[0]
    ensures ClientsStand(Do(e, u, b, ActionOf(s.chan[0])), s.clients)
  {
    hide T.SysInv, WorldFits, Related, Handle, Unheard, AnswersTo, Wanted, D.Orderly;
    var a, job := ActionOf(s.chan[0]), s.chan[0];
    var b' := Do(e, u, b, a);
    HandleAppends(e, b.w, job);
    var more := b'.w.sent[|b.w.sent|..];
    RelatedMeans(u, b, s);
    FrontIsOrderly(e, s);
    assert b'.w.sent == b.w.sent + more;
    SentBefore(u, b);
    forall k | k in b'.procs && b'.procs[k].alive ensures k in s.clients && ClientStands(b', s.clients[k].pc, k) {
      forall m | m in more && m.id == k && m.message.Replied?
        ensures k in s.clients && s.clients[k].pc == T.Waiting(m.reply, false) && m.reply in b'.calls
      {
        NewAnswer(u, b, s, b'.w, m, b'.calls);
      }
      if k in b.procs {
        BT.AliveFits(u, b, k);
        HeardInside(u, b, k);
        StandsAfter(b, b', s.clients[k].pc, k, more);
      } else {
        FrontClient(s);
        NewcomerWaits(u, b, b', k, more);
      }
    }
  }

  lemma HeardInside<L>(u: Setup, b: World<L>, k: Session)
    requires WorldFits(u, b) && k in b.procs
    ensures b.procs[k].heard <= |AnswersTo(b, k)|
  {
    hide BrokerFits, ReturnsFit, TicketsFit, I.Inv, Answers;
    assert ProcStands(u, b, k);
  }

  lemma SentBefore<L>(u: Setup, b: World<L>)
    requires WorldFits(u, b)
    ensures forall i | 0 <= i < |b.w.sent| :: b.w.sent[i].reply < b.tickets
  {
    hide BrokerFits, ReturnsFit, TicketsFit, I.Inv, ProcStands;
    NoMessageYet(b);
  }

  lemma FrontIsOrderly<L>(e: Engine<Sql, L, Schema>, s: System<L>)
    requires T.SysInv(s) && s.chan != []
    ensures D.Orderly(s.w, s.chan[0], Handle(e, s.w, s.chan[0]))
  {
    T.FrontIsAdmissible(s);
    assert I.Inv(s.w) && D.Disciplined(s.w);
    hide T.SysInv, Handle, I.Inv, D.Orderly;
    D.HandleIsOrderly(e, s.w, s.chan[0]);
  }

  lemma FrontClient<L>(s: System<L>)
    requires T.SysInv(s) && s.chan != []
    ensures s.chan[0].id in s.clients && (s.chan[0].Open? ==> s.clients[s.chan[0].id].pc.Opening?)
  {
    assert T.JobFits(s.chan[0], s.clients, s.w.sessions.Keys);
  }

  lemma WorkRelated<L(!new)>(e: Engine<Sql, L, Schema>, u: Setup, b: World<L>, s: System<L>)
    requires MigrationEngine(e, u.plan, u.benign) && Related(u, b, s) && s.chan != []
    ensures var a := ActionOf(s.chan[0]);
            Enabled(u, b, a) && Related(u, Do(e, u, b, a), T.Do(e, s, T.Work))
  {
    hide MigrationEngine, T.SysInv, WorldFits, Handle, Wanted, AnswersTo, ClientsStand, JobStands;
    JobIsAction(u, b, s);
    var a := ActionOf(s.chan[0]);
    WorkClientsStand(e, u, b, s);
    T.StepKeeps(e, s, T.Work);
    BT.JobKeeps(e, u, b, a);
    FrontClient(s);
    WorkChannelStands(e, u, b, s);
  }

  lemma WorkChannelStands<L>(e: Engine<Sql, L, Schema>, u: Setup, b: World<L>, s: System<L>)
    requires Related(u, b, s) && s.chan != [] && Enabled(u, b, ActionOf(s.chan[0]))
    requires !ActionOf(s.chan[0]).Hear? && JobOf(u, b, ActionOf(s.chan[0])) == s.chan[0]
    ensures ChannelStands(u, Do(e, u, b, ActionOf(s.chan[0])), s.chan[1..])
  {
    hide WorldFits, Handle, Wanted, AnswersTo, ClientsStand, JobStands;
    T.FrontIsAlone(s);
    var a := ActionOf(s.chan[0]);
    var b' := Do(e, u, b, a);
    forall i | 0 <= i < |s.chan[1..]| ensures JobStands(u, b', s.chan[1..][i]) {
      var other := s.chan[i + 1];
      assert T.JobFits(s.chan[0], s.clients, s.w.sessions.Keys);
      assert T.JobFits(other, s.clients, s.w.sessions.Keys);
      assert other.reply != s.chan[0].reply && other.id != a.id;
      JobStays(u, b, b', other);
    }
  }

  // ---------- runs ----------

  lemma {:induction false} OneMoreAction<L>(e: Engine<Sql, L, Schema>, u: Setup, b: World<L>, done: seq<Action>,
                                            a: Action)
    requires Run(e, u, b, done).Some? && Enabled(u, Run(e, u, b, done).value, a)
    ensures Run(e, u, b, done + [a]) == Some(Do(e, u, Run(e, u, b, done).value, a))
    decreases |done|
  {
    hide Do, Enabled;
    if done == [] {
      assert [a][1..] == [] && done + [a] == [a];
      assert Run(e, u, Do(e, u, b, a), []) == Some(Do(e, u, b, a));
    } else {
      AppendParts(done, [a]);
      OneMoreAction(e, u, Do(e, u, b, done[0]), done[1..], a);
    }
  }

  lemma StepRelated<L(!new)>(e: Engine<Sql, L, Schema>, u: Setup, b: World<L>, s: System<L>, a: T.Action<Sql>)
    requires MigrationEngine(e, u.plan, u.benign) && Related(u, b, s) && T.Enabled(s, a) && SendsWanted(u, b, a)
    ensures Related(u, Track(e, u, b, StepOf(s, a)), T.Do(e, s, a))
    ensures StepOf(s, a).Some? ==> Enabled(u, b, StepOf(s, a).value)
  {
    hide MigrationEngine, Related, T.Do, Do, Enabled;
    if StepOf(s, a).None? {
      QuietStep(e, u, b, s, a);
    } else if a.Work? {
      WorkRelated(e, u, b, s);
    } else {
      WriteRelated(e, u, b, s, a);
    }
  }

  lemma {:induction false} RunRelated<L(!new)>(e: Engine<Sql, L, Schema>, u: Setup, done: seq<Action>, b: World<L>,
                                               s: System<L>, actions: seq<T.Action<Sql>>)
    returns (all: seq<Action>, b': World<L>)
    requires MigrationEngine(e, u.plan, u.benign) && Related(u, b, s) && Migrates(e, u, b, s, actions)
    requires Run(e, u, NewWorld(u.before), done) == Some(b)
    ensures T.Run(e, s, actions).Some? && Related(u, b', T.Run(e, s, actions).value)
    ensures Run(e, u, NewWorld(u.before), all) == Some(b')
    decreases |actions|
  {
    hide MigrationEngine, Related, T.Do, Run, StepOf, SendsWanted, Enabled, Do;
    all, b' := done, b;
    if actions != [] {
      var a := actions[0];
      var step := StepOf(s, a);
      StepRelated(e, u, b, s, a);
      if step.Some? {
        OneMoreAction(e, u, NewWorld(u.before), done, step.value);
        all := done + [step.value];
      }
      all, b' := RunRelated(e, u, all, Track(e, u, b, step), T.Do(e, s, a), actions[1..]);
    }
  }

  lemma InitRelated<L>(u: Setup)
    ensures Related<L>(u, NewWorld(u.before), T.Init(u.before))
  {
    BT.NewWorldFits<L>(u);
    hide WorldFits;
  }

  /** Every run of the clients, the channel and the worker, in which each process sends what its last
      answer calls for, is a run of the processes over the worker: so the file, the commits and the
      returns are what they are there. */
  lemma SystemMigrates<L(!new)>(e: Engine<Sql, L, Schema>, u: Setup, actions: seq<T.Action<Sql>>)
    returns (all: seq<Action>, b: World<L>)
    requires MigrationEngine(e, u.plan, u.benign)
    requires Migrates(e, u, NewWorld(u.before), T.Init(u.before), actions)
    ensures Run(e, u, NewWorld(u.before), all) == Some(b)
    ensures T.Run(e, T.Init(u.before), actions).Some? && T.Run(e, T.Init(u.before), actions).value.w == b.w
  {
    var b0: World<L> := NewWorld(u.before);
    var s0: System<L> := T.Init(u.before);
    InitRelated<L>(u);
    assert Run(e, u, b0, []) == Some(b0);
    hide MigrationEngine, Migrates, Run, T.Run, WorldFits, T.SysInv, ClientsStand, ChannelStands;
    all, b := RunRelated(e, u, [], b0, s0, actions);
  }

  /** In every state of the whole system each version added was committed exactly once and every part is
      in effect exactly as often as expected, every return of 1 was of a different commit, and returns
      and commits are equally many if and only if no process has a successful COMMIT it has not heard. */
  lemma SystemEachVersionOnce<L(!new)>(e: Engine<Sql, L, Schema>, u: Setup, actions: seq<T.Action<Sql>>)
    returns (b: World<L>)
    requires MigrationEngine(e, u.plan, u.benign)
    requires Migrates(e, u, NewWorld(u.before), T.Init(u.before), actions)
    ensures T.Run(e, T.Init(u.before), actions).Some?
    ensures var s := T.Run(e, T.Init(u.before), actions).value;
            && s.w == b.w && FileFits(u, s.w.db)
            && WinsFit(Wins(u, b.calls, s.w.sent), u.before.marks, s.w.db.marks)
            && (O.SomeFinished(b) ==> forall v: nat | 1 <= v <= |u.plan| :: v in s.w.db.marks)
            && (forall i, j | 0 <= i < j < |b.returned| :: b.returned[i] != b.returned[j])
            && |b.returned| <= |O.Committed(u, b)|
            && (|b.returned| == |O.Committed(u, b)| <==> forall id :: !O.UnheardCommit(b, id))
  {
    hide MigrationEngine, Migrates, Run, T.Run, FileFits, WinsFit, Wins, O.SomeFinished, O.UnheardCommit, WorldFits;
    var all;
    all, b := SystemMigrates(e, u, actions);
    O.EachVersionOnce(e, u, all);
    O.RunFits(e, u, all);
    O.ReturnsAndCommits(u, b);
  }
}
