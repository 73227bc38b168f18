/** Any number of client threads, the job channel and the worker, as one transition system. */
module Clients {
  import opened Prelude
  import opened Engine
  import opened Script
  import opened Broker
  import opened BrokerInvariants
  import opened Discipline

  /** Where a client thread stands. A ticket is the reply channel it is blocked on. */
  datatype PC =
    | Opening(t: Ticket)
    | Greeting
    | Reading
    | Waiting(t: Ticket, closing: bool)
    | Answering(response: Response, closing: bool)
    | Leaving(t: Ticket)
    | Gone

  /** One client thread, the autocommit flag its shim caches, whether its session was opened, and
      how many times it has asked for the session to be torn down. */
  datatype Client = Client(pc: PC, cached: bool, joined: bool, teardowns: nat)

  datatype Sys<C, L, D> = Sys(w: W<C, L, D>, chan: seq<Job<C>>, clients: map<Session, Client>, sessions: nat,
                              tickets: nat)

  datatype Action<C> =
    | Accept(opens: bool)
    | Work
    | Hear(id: Session, i: nat)
    | Greet(id: Session, ok: bool)
    | Receive(id: Session, req: Request<C>)
    | Disconnect(id: Session)
    | Write(id: Session, ok: bool)

  function Init<C, L, D>(db: D): Sys<C, L, D> {
    Sys(Start(db), [], map[], 0, 0)
  }

  function Awaits(pc: PC): Option<Ticket> {
    match pc
    case Opening(t) => Some(t)
    case Waiting(t, _) => Some(t)
    case Leaving(t) => Some(t)
    case _ => None
  }

  predicate Enabled<C, L, D>(s: Sys<C, L, D>, a: Action<C>) {
    match a
    case Accept(_) => true
    case Work => s.chan != []
    case Hear(id, i) => id in s.clients && i < |s.w.sent| && Awaits(s.clients[id].pc) == Some(s.w.sent[i].reply)
    case Greet(id, _) => id in s.clients && s.clients[id].pc.Greeting?
    case Receive(id, _) => id in s.clients && s.clients[id].pc.Reading?
    case Disconnect(id) => id in s.clients && s.clients[id].pc.Reading?
    case Write(id, _) => id in s.clients && s.clients[id].pc.Answering?
  }

  /** A step that needs no request from, and no disconnection of, a remote process. */
  predicate Internal<C>(a: Action<C>) {
    a.Work? || a.Hear? || a.Greet? || a.Write?
  }

  /** What a blocked client does with the message on its reply channel. */
  function Heard(c: Client, m: Message): Client {
    match (c.pc, m)
    case (Opening(_), Opened(ok)) => c.(pc := if ok then Greeting else Gone, joined := ok)
    case (Waiting(_, closing), Replied(r)) => c.(pc := Answering(r, closing))
    case (Leaving(_), Dropped) => c.(pc := Gone)
    case _ => c
  }

  /** A client takes the next reply channel, sends a job with it and blocks on it. */
  function Submit<C, L, D>(s: Sys<C, L, D>, id: Session, c: Client, job: Job<C>): Sys<C, L, D> {
    s.(chan := s.chan + [job], clients := s.clients[id := c], tickets := s.tickets + 1)
  }

  function DropRemote<C, L, D>(s: Sys<C, L, D>, id: Session): Sys<C, L, D>
    requires id in s.clients
  {
    var c := s.clients[id];
    Submit(s, id, c.(pc := Leaving(s.tickets), teardowns := c.teardowns + 1), Drop(id, s.tickets))
  }

  function Do<C, L, D>(e: Engine<C, L, D>, s: Sys<C, L, D>, a: Action<C>): Sys<C, L, D>
    requires Enabled(s, a)
  {
    match a
    case Accept(opens) =>
      Submit(s.(sessions := s.sessions + 1), s.sessions, Client(Opening(s.tickets), true, false, 0),
             Open(s.sessions, s.tickets, opens))
    case Work => s.(w := Handle(e, s.w, s.chan[0]), chan := s.chan[1..])
    case Hear(id, i) => s.(clients := s.clients[id := Heard(s.clients[id], s.w.sent[i].message)])
    case Greet(id, ok) => if ok then s.(clients := s.clients[id := s.clients[id].(pc := Reading)])
        else DropRemote(s, id)
    case Receive(id, req) =>
      var c := s.clients[id];
      Submit(s, id, c.(pc := Waiting(s.tickets, req.Close?), teardowns := c.teardowns + if req.Close? then 1 else 0),
             Req(id, req, s.tickets))
    case Disconnect(id) => DropRemote(s, id)
    case Write(id, ok) =>
      var c := s.clients[id];
      if c.pc.closing then s.(clients := s.clients[id := c.(pc := Gone)])
      else if ok then s.(clients := s.clients[id := c.(pc := Reading, cached := c.pc.response.autocommit)])
      else DropRemote(s, id)
  }

  function Run<C, L, D>(e: Engine<C, L, D>, s: Sys<C, L, D>, actions: seq<Action<C>>): Option<Sys<C, L, D>>
    decreases |actions|
  {
    if actions == [] then Some(s)
    else if !Enabled(s, actions[0]) then None
    else Run(e, Do(e, s, actions[0]), actions[1..])
  }

  ghost predicate Reachable<C(!new), L, D>(e: Engine<C, L, D>, db: D, s: Sys<C, L, D>) {
    exists actions: seq<Action<C>> :: Run(e, Init(db), actions) == Some(s)
  }

  // ---------- the invariant ----------

  function Outstanding<C, L, D>(s: Sys<C, L, D>): multiset<Ticket> {
    Owed(s.w) + JobTickets(s.chan)
  }

  /** Every reply channel handed out so far is in exactly one place, once. */
  ghost predicate TicketsExact<C, L, D>(s: Sys<C, L, D>) {
    forall t: Ticket :: Outstanding(s)[t] == if t < s.tickets then 1 else 0
  }

  /** The job is the one its client is blocked on, and finds the session it expects. */
  ghost predicate JobFits<C>(job: Job<C>, clients: map<Session, Client>, live: set<Session>) {
    && job.id in clients
    && clients[job.id].pc == (match job
                              case Open(_, t, _) => Opening(t)
                              case Req(_, req, t) => Waiting(t, req.Close?)
                              case Drop(_, t) => Leaving(t))
    && (job.Open? <==> job.id !in live)
  }

  ghost predicate QueuedFits<C>(p: Pending<C>, clients: map<Session, Client>) {
    p.id in clients && clients[p.id].pc == Waiting(p.reply, false)
  }

  /** A message its client has not taken yet is the one the client expects, and is still true. */
  ghost predicate MessageFits(m: Sent, pc: PC, live: set<Session>, holder: Option<Session>) {
    match pc
    case Opening(_) => m.message.Opened? && (m.message.ok <==> m.id in live)
    case Waiting(_, closing) =>
      && m.message.Replied?
      && (if closing then m.id !in live else m.id in live && Truthful(m.message.response, m.id, holder))
    case Leaving(_) => m.message.Dropped? && m.id !in live
    case _ => true
  }

  ghost predicate SentFits(m: Sent, clients: map<Session, Client>, live: set<Session>, holder: Option<Session>) {
    && m.id in clients
    && (forall c | c in clients && Awaits(clients[c].pc) == Some(m.reply) :: c == m.id)
    && (Awaits(clients[m.id].pc) == Some(m.reply) ==> MessageFits(m, clients[m.id].pc, live, holder))
    && (m.message.Replied? && m.message.response.fault.Some? ==> OwnFault(m.message.response.fault.value))
  }

  /** What holds of a client that has nothing outstanding, and of every client's bookkeeping. */
  ghost predicate ClientFits(id: Session, c: Client, live: set<Session>, holder: Option<Session>, tickets: nat) {
    && (Awaits(c.pc).Some? ==> Awaits(c.pc).value < tickets)
    && match c.pc
       case Opening(_) => c.cached && holder != Some(id) && !c.joined && c.teardowns == 0
       case Greeting => id in live && c.joined && c.teardowns == 0 && (c.cached <==> holder != Some(id))
       case Reading => id in live && c.joined && c.teardowns == 0 && (c.cached <==> holder != Some(id))
       case Waiting(_, closing) => c.joined && c.teardowns == if closing then 1 else 0
       case Answering(r, closing) =>
         && c.joined && c.teardowns == (if closing then 1 else 0)
         && (if closing then id !in live else id in live && Truthful(r, id, holder))
       case Leaving(_) => c.joined && c.teardowns == 1
       case Gone => id !in live && c.teardowns == if c.joined then 1 else 0
  }

  ghost predicate ChanFits<C>(chan: seq<Job<C>>, clients: map<Session, Client>, live: set<Session>) {
    forall i | 0 <= i < |chan| :: JobFits(chan[i], clients, live)
  }

  ghost predicate QueueFits<C>(pending: seq<Pending<C>>, clients: map<Session, Client>) {
    forall i | 0 <= i < |pending| :: QueuedFits(pending[i], clients)
  }

  ghost predicate MailFits(sent: seq<Sent>, clients: map<Session, Client>, live: set<Session>,
                           holder: Option<Session>) {
    forall i | 0 <= i < |sent| :: SentFits(sent[i], clients, live, holder)
  }

  ghost predicate AllFit(clients: map<Session, Client>, live: set<Session>, holder: Option<Session>, tickets: nat) {
    forall id | id in clients :: ClientFits(id, clients[id], live, holder, tickets)
  }

  /** No two clients are blocked on the same reply channel. */
  ghost predicate AwaitAlone(clients: map<Session, Client>) {
    forall a, b | a in clients && b in clients && Awaits(clients[a].pc).Some?
                  && Awaits(clients[a].pc) == Awaits(clients[b].pc) :: a == b
  }

  ghost predicate SysInv<C, L, D>(s: Sys<C, L, D>) {
    var live, holder := s.w.sessions.Keys, s.w.holder;
    && Inv(s.w) && Disciplined(s.w) && TicketsExact(s)
    && ChanFits(s.chan, s.clients, live)
    && QueueFits(s.w.pending, s.clients)
    && MailFits(s.w.sent, s.clients, live, holder)
    && AllFit(s.clients, live, holder, s.tickets)
    && AwaitAlone(s.clients)
    && (forall id | id in s.clients :: id < s.sessions)
    && live <= s.clients.Keys
  }

  // ---------- counting reply channels ----------

  lemma {:induction false} JobCounted<C>(jobs: seq<Job<C>>, i: nat)
    requires i < |jobs|
    ensures JobTickets(jobs)[jobs[i].reply] >= 1
    ensures forall j | 0 <= j < |jobs| && j != i && jobs[j].reply == jobs[i].reply ::
            JobTickets(jobs)[jobs[i].reply] >= 2
    decreases |jobs|
  {
    if i > 0 {
      JobCounted(jobs[1..], i - 1);
      forall j | 0 <= j < |jobs| && j != i && jobs[j].reply == jobs[i].reply
          ensures JobTickets(jobs)[jobs[i].reply] >= 2 {
        if j > 0 {
          assert jobs[1..][j - 1] == jobs[j];
        }
      }
    } else {
      forall j | 0 < j < |jobs| && jobs[j].reply == jobs[0].reply ensures JobTickets(jobs)[jobs[0].reply] >= 2 {
        JobCounted(jobs[1..], j - 1);
      }
    }
  }

  lemma {:induction false} PendingCounted<C>(ps: seq<Pending<C>>, i: nat)
    requires i < |ps|
    ensures PendingTickets(ps)[ps[i].reply] >= 1
  {
    if i > 0 {
      PendingCounted(ps[1..], i - 1);
    }
  }

  lemma {:induction false} SentCounted(ss: seq<Sent>, i: nat)
    requires i < |ss|
    ensures SentTickets(ss)[ss[i].reply] >= 1
  {
    if i > 0 {
      SentCounted(ss[1..], i - 1);
    }
  }

  lemma {:induction false} JobTicketsAppend<C>(a: seq<Job<C>>, b: seq<Job<C>>)
    ensures JobTickets(a + b) == JobTickets(a) + JobTickets(b)
  {
    if a == [] {
      NoPrefix(b);
    } else {
      JobTicketsAppend(a[1..], b);
      AppendParts(a, b);
      SumAssoc(multiset{a[0].reply}, JobTickets(a[1..]), JobTickets(b));
    }
  }

  /** No reply channel is in two places: the front job's is neither queued nor answered nor in
      another job. */
  lemma FrontIsAlone<C, L, D>(s: Sys<C, L, D>)
    requires TicketsExact(s) && s.chan != []
    ensures forall i | 0 <= i < |s.w.pending| :: s.w.pending[i].reply != s.chan[0].reply
    ensures forall i | 0 <= i < |s.w.sent| :: s.w.sent[i].reply != s.chan[0].reply
    ensures forall i | 0 < i < |s.chan| :: s.chan[i].reply != s.chan[0].reply
  {
    hide JobTickets, PendingTickets, SentTickets;
    JobCounted(s.chan, 0);
    var t := s.chan[0].reply;
    assert Outstanding(s)[t] <= 1;
    forall i | 0 <= i < |s.w.pending| ensures s.w.pending[i].reply != t {
      PendingCounted(s.w.pending, i);
    }
    forall i | 0 <= i < |s.w.sent| ensures s.w.sent[i].reply != t {
      SentCounted(s.w.sent, i);
    }
  }

  lemma QueuedIsUnanswered<C, L, D>(s: Sys<C, L, D>)
    requires TicketsExact(s)
    ensures forall i, k | 0 <= i < |s.w.sent| && 0 <= k < |s.w.pending| :: s.w.sent[i].reply != s.w.pending[k].reply
    ensures forall i, k | 0 <= i < |s.chan| && 0 <= k < |s.w.pending| :: s.chan[i].reply != s.w.pending[k].reply
  {
    hide JobTickets, PendingTickets, SentTickets;
    forall i, k | 0 <= i < |s.w.sent| && 0 <= k < |s.w.pending| ensures s.w.sent[i].reply != s.w.pending[k].reply {
      assert Outstanding(s)[s.w.sent[i].reply] <= 1;
      SentCounted(s.w.sent, i);
      PendingCounted(s.w.pending, k);
    }
    forall i, k | 0 <= i < |s.chan| && 0 <= k < |s.w.pending| ensures s.chan[i].reply != s.w.pending[k].reply {
      assert Outstanding(s)[s.chan[i].reply] <= 1;
      JobCounted(s.chan, i);
      PendingCounted(s.w.pending, k);
    }
  }

  // ---------- the worker takes a job ----------

  /** The front job is one a disciplined worker expects. */
  lemma FrontIsAdmissible<C, L, D>(s: Sys<C, L, D>)
    requires SysInv(s) && s.chan != []
    ensures Admissible(s.w, s.chan[0]) && OpensFresh(s.w, s.chan[0])
    ensures Awaits(s.clients[s.chan[0].id].pc) == Some(s.chan[0].reply)
  {
    var job := s.chan[0];
    assert JobFits(job, s.clients, s.w.sessions.Keys);
    FrontIsAlone(s);
    forall i | 0 <= i < |s.w.pending| ensures s.w.pending[i].id != job.id {
      assert QueuedFits(s.w.pending[i], s.clients);
    }
  }

  lemma WorkTickets<C, L, D>(e: Engine<C, L, D>, s: Sys<C, L, D>)
    requires TicketsExact(s) && s.chan != []
    ensures TicketsExact(Do(e, s, Work))
  {
    hide SentTickets, PendingTickets, Handle;
    HandleConserves(e, s.w, s.chan[0]);
    var s' := Do(e, s, Work);
    assert Outstanding(s') == Outstanding(s);
  }

  lemma WorkChan<C, L, D>(s: Sys<C, L, D>, w': W<C, L, D>)
    requires SysInv(s) && s.chan != [] && Orderly(s.w, s.chan[0], w')
    ensures ChanFits(s.chan[1..], s.clients, w'.sessions.Keys)
  {
    FrontIsAlone(s);
    var job := s.chan[0];
    assert JobFits(job, s.clients, s.w.sessions.Keys);
    forall i | 0 <= i < |s.chan[1..]| ensures JobFits(s.chan[1..][i], s.clients, w'.sessions.Keys) {
      var other := s.chan[i + 1];
      assert s.chan[1..][i] == other;
      assert JobFits(other, s.clients, s.w.sessions.Keys);
      assert other.reply != job.reply;
      assert other.id != job.id;
    }
  }

  lemma WorkQueue<C, L, D>(s: Sys<C, L, D>, w': W<C, L, D>)
    requires SysInv(s) && s.chan != [] && Orderly(s.w, s.chan[0], w')
    ensures QueueFits(w'.pending, s.clients)
  {
    var job := s.chan[0];
    assert JobFits(job, s.clients, s.w.sessions.Keys);
    forall i | 0 <= i < |w'.pending| ensures QueuedFits(w'.pending[i], s.clients) {
      var p := w'.pending[i];
      assert p in w'.pending;
      if p in s.w.pending {
        var k :| 0 <= k < |s.w.pending| && s.w.pending[k] == p;
        assert QueuedFits(s.w.pending[k], s.clients);
      }
    }
  }

  /** A client that is neither the job's nor queued notices nothing. */
  lemma Bystander<C, L, D>(s: Sys<C, L, D>, w': W<C, L, D>, id: Session)
    requires SysInv(s) && s.chan != [] && Orderly(s.w, s.chan[0], w')
    requires id != s.chan[0].id && !InQueue(s.w.pending, id)
    ensures id in w'.sessions <==> id in s.w.sessions
    ensures w'.holder == Some(id) <==> s.w.holder == Some(id)
  {
  }

  lemma NotBlockedNotQueued<C, L, D>(s: Sys<C, L, D>, id: Session)
    requires SysInv(s) && id in s.clients && Awaits(s.clients[id].pc).None?
    ensures !InQueue(s.w.pending, id)
    ensures s.chan != [] ==> s.chan[0].id != id
  {
    forall i | 0 <= i < |s.w.pending| ensures s.w.pending[i].id != id {
      assert QueuedFits(s.w.pending[i], s.clients);
    }
    if s.chan != [] {
      assert JobFits(s.chan[0], s.clients, s.w.sessions.Keys);
    }
  }

  lemma WorkOldMail<C, L, D>(s: Sys<C, L, D>, w': W<C, L, D>, i: nat)
    requires SysInv(s) && s.chan != [] && Orderly(s.w, s.chan[0], w') && i < |s.w.sent|
    ensures SentFits(s.w.sent[i], s.clients, w'.sessions.Keys, w'.holder)
  {
    var m := s.w.sent[i];
    assert SentFits(m, s.clients, s.w.sessions.Keys, s.w.holder);
    if Awaits(s.clients[m.id].pc) == Some(m.reply) {
      FrontIsAlone(s);
      QueuedIsUnanswered(s);
      assert JobFits(s.chan[0], s.clients, s.w.sessions.Keys);
      forall k | 0 <= k < |s.w.pending| ensures s.w.pending[k].id != m.id {
        assert QueuedFits(s.w.pending[k], s.clients);
        assert m.reply != s.w.pending[k].reply;
      }
      Bystander(s, w', m.id);
    }
  }

  lemma WorkNewMail<C, L, D>(s: Sys<C, L, D>, w': W<C, L, D>, i: nat)
    requires SysInv(s) && s.chan != [] && Orderly(s.w, s.chan[0], w') && |s.w.sent| <= i < |w'.sent|
    ensures SentFits(w'.sent[i], s.clients, w'.sessions.Keys, w'.holder)
  {
    hide TicketsExact, MailFits, AllFit, Inv, SentFits, Disciplined;
    var m, job := w'.sent[i], s.chan[0];
    FrontIsAdmissible(s);
    assert JobFits(job, s.clients, s.w.sessions.Keys);
    if AnswersJob(m, job, w'.holder) {
      MailOfJob(s, w', m);
    } else {
      var k :| 0 <= k < |s.w.pending| && Answers(m, s.w.pending[k], w'.holder);
      MailOfQueued(s, w', m, k);
    }
  }

  lemma MailOfJob<C, L, D>(s: Sys<C, L, D>, w': W<C, L, D>, m: Sent)
    requires s.chan != [] && JobFits(s.chan[0], s.clients, s.w.sessions.Keys) && AwaitAlone(s.clients)
    requires w'.sessions.Keys == SessionsAfter(s.w.sessions.Keys, s.chan[0])
    requires AnswersJob(m, s.chan[0], w'.holder)
    ensures SentFits(m, s.clients, w'.sessions.Keys, w'.holder)
  {
  }

  lemma MailOfQueued<C, L, D>(s: Sys<C, L, D>, w': W<C, L, D>, m: Sent, k: nat)
    requires SysInv(s) && s.chan != [] && w'.sessions.Keys == SessionsAfter(s.w.sessions.Keys, s.chan[0])
    requires k < |s.w.pending| && s.w.pending[k].id != s.chan[0].id && Answers(m, s.w.pending[k], w'.holder)
    ensures SentFits(m, s.clients, w'.sessions.Keys, w'.holder)
  {
    hide TicketsExact, MailFits, AllFit, Inv, ChanFits;
    assert QueuedFits(s.w.pending[k], s.clients);
    assert s.w.pending[k].id in s.w.sessions;
  }

  lemma WorkMail<C, L, D>(s: Sys<C, L, D>, w': W<C, L, D>)
    requires SysInv(s) && s.chan != [] && Orderly(s.w, s.chan[0], w')
    ensures MailFits(w'.sent, s.clients, w'.sessions.Keys, w'.holder)
  {
    forall i | 0 <= i < |w'.sent| ensures SentFits(w'.sent[i], s.clients, w'.sessions.Keys, w'.holder) {
      if i < |s.w.sent| {
        WorkOldMail(s, w', i);
      } else {
        WorkNewMail(s, w', i);
      }
    }
  }

  lemma WorkClients<C, L, D>(s: Sys<C, L, D>, w': W<C, L, D>)
    requires SysInv(s) && s.chan != [] && Orderly(s.w, s.chan[0], w')
    ensures AllFit(s.clients, w'.sessions.Keys, w'.holder, s.tickets)
  {
    forall id | id in s.clients ensures ClientFits(id, s.clients[id], w'.sessions.Keys, w'.holder, s.tickets) {
      assert ClientFits(id, s.clients[id], s.w.sessions.Keys, s.w.holder, s.tickets);
      if Awaits(s.clients[id].pc).None? {
        NotBlockedNotQueued(s, id);
        Bystander(s, w', id);
      } else if s.clients[id].pc.Opening? && id != s.chan[0].id {
        forall i | 0 <= i < |s.w.pending| ensures s.w.pending[i].id != id {
          assert QueuedFits(s.w.pending[i], s.clients);
        }
        Bystander(s, w', id);
      } else if s.clients[id].pc.Opening? {
        assert JobFits(s.chan[0], s.clients, s.w.sessions.Keys);
      }
    }
  }

  lemma WorkKeeps<C, L, D>(e: Engine<C, L, D>, s: Sys<C, L, D>)
    requires SysInv(s) && s.chan != []
    ensures SysInv(Do(e, s, Work))
  {
    hide Handle, TicketsExact, Orderly, MailFits, AllFit, ChanFits, QueueFits, AwaitAlone;
    var w' := Handle(e, s.w, s.chan[0]);
    FrontIsAdmissible(s);
    HandleKeepsInv(e, s.w, s.chan[0]);
    HandleIsOrderly(e, s.w, s.chan[0]);
    WorkTickets(e, s);
    WorkChan(s, w');
    WorkQueue(s, w');
    WorkMail(s, w');
    WorkClients(s, w');
    SameSessions(s, w');
  }

  lemma SameSessions<C, L, D>(s: Sys<C, L, D>, w': W<C, L, D>)
    requires SysInv(s) && s.chan != [] && Orderly(s.w, s.chan[0], w')
    ensures w'.sessions.Keys <= s.clients.Keys && Disciplined(w')
  {
    assert JobFits(s.chan[0], s.clients, s.w.sessions.Keys);
  }

  // ---------- a client moves ----------

  /** No job in the channel belongs to `id`. */
  ghost predicate NoJobOf<C>(chan: seq<Job<C>>, id: Session) {
    forall i | 0 <= i < |chan| :: chan[i].id != id
  }

  lemma IdleHasNoJob<C, L, D>(s: Sys<C, L, D>, id: Session)
    requires SysInv(s) && (id in s.clients ==> Awaits(s.clients[id].pc).None?)
    ensures NoJobOf(s.chan, id) && !InQueue(s.w.pending, id)
  {
    forall i | 0 <= i < |s.chan| ensures s.chan[i].id != id {
      assert JobFits(s.chan[i], s.clients, s.w.sessions.Keys);
    }
    forall i | 0 <= i < |s.w.pending| ensures s.w.pending[i].id != id {
      assert QueuedFits(s.w.pending[i], s.clients);
    }
  }

  lemma SentTicketIsOld<C, L, D>(s: Sys<C, L, D>, i: nat)
    requires TicketsExact(s) && i < |s.w.sent|
    ensures s.w.sent[i].reply < s.tickets
  {
    SentCounted(s.w.sent, i);
    assert Outstanding(s)[s.w.sent[i].reply] >= 1;
  }

  lemma SubmitTickets<C, L, D>(s: Sys<C, L, D>, id: Session, c: Client, job: Job<C>)
    requires TicketsExact(s) && job.reply == s.tickets
    ensures TicketsExact(Submit(s, id, c, job))
  {
    hide SentTickets, PendingTickets;
    JobTicketsAppend(s.chan, [job]);
    assert [job][1..] == [];
    var s' := Submit(s, id, c, job);
    assert JobTickets([job]) == multiset{job.reply};
    assert Outstanding(s') == Outstanding(s) + multiset{job.reply};
  }

  lemma SubmitMail<C, L, D>(s: Sys<C, L, D>, id: Session, c: Client)
    requires SysInv(s) && Awaits(c.pc) == Some(s.tickets)
    ensures MailFits(s.w.sent, s.clients[id := c], s.w.sessions.Keys, s.w.holder)
  {
    var clients' := s.clients[id := c];
    forall i | 0 <= i < |s.w.sent| ensures SentFits(s.w.sent[i], clients', s.w.sessions.Keys, s.w.holder) {
      assert SentFits(s.w.sent[i], s.clients, s.w.sessions.Keys, s.w.holder);
      SentTicketIsOld(s, i);
    }
  }

  lemma SubmitChan<C, L, D>(s: Sys<C, L, D>, id: Session, c: Client, job: Job<C>)
    requires SysInv(s) && NoJobOf(s.chan, id) && !InQueue(s.w.pending, id)
    requires JobFits(job, s.clients[id := c], s.w.sessions.Keys)
    ensures ChanFits(s.chan + [job], s.clients[id := c], s.w.sessions.Keys)
    ensures QueueFits(s.w.pending, s.clients[id := c])
  {
    var clients', chan' := s.clients[id := c], s.chan + [job];
    forall i | 0 <= i < |chan'| ensures JobFits(chan'[i], clients', s.w.sessions.Keys) {
      if i < |s.chan| {
        assert JobFits(s.chan[i], s.clients, s.w.sessions.Keys);
        assert s.chan[i].id != id;
      }
    }
    forall i | 0 <= i < |s.w.pending| ensures QueuedFits(s.w.pending[i], clients') {
      assert QueuedFits(s.w.pending[i], s.clients);
    }
  }

  lemma SubmitClients<C, L, D>(s: Sys<C, L, D>, id: Session, c: Client)
    requires SysInv(s) && Awaits(c.pc) == Some(s.tickets)
    requires ClientFits(id, c, s.w.sessions.Keys, s.w.holder, s.tickets + 1)
    ensures AllFit(s.clients[id := c], s.w.sessions.Keys, s.w.holder, s.tickets + 1) && AwaitAlone(s.clients[id := c])
  {
    var clients' := s.clients[id := c];
    forall k | k in clients' ensures ClientFits(k, clients'[k], s.w.sessions.Keys, s.w.holder, s.tickets + 1) {
      if k != id {
        assert ClientFits(k, s.clients[k], s.w.sessions.Keys, s.w.holder, s.tickets);
      }
    }
    forall k | k in s.clients && Awaits(s.clients[k].pc).Some? ensures Awaits(s.clients[k].pc).value < s.tickets {
      assert ClientFits(k, s.clients[k], s.w.sessions.Keys, s.w.holder, s.tickets);
    }
  }

  lemma SubmitKeeps<C, L, D>(s: Sys<C, L, D>, id: Session, c: Client, job: Job<C>)
    requires SysInv(s) && id < s.sessions && (id in s.clients ==> Awaits(s.clients[id].pc).None?)
    requires job.id == id && job.reply == s.tickets && Awaits(c.pc) == Some(s.tickets)
    requires JobFits(job, s.clients[id := c], s.w.sessions.Keys)
    requires ClientFits(id, c, s.w.sessions.Keys, s.w.holder, s.tickets + 1)
    ensures SysInv(Submit(s, id, c, job))
  {
    IdleHasNoJob(s, id);
    SubmitTickets(s, id, c, job);
    SubmitMail(s, id, c);
    SubmitChan(s, id, c, job);
    SubmitClients(s, id, c);
    hide TicketsExact, MailFits, AllFit, ChanFits, QueueFits, AwaitAlone;
  }

  lemma FitOf<C, L, D>(s: Sys<C, L, D>, id: Session)
    requires SysInv(s) && id in s.clients
    ensures ClientFits(id, s.clients[id], s.w.sessions.Keys, s.w.holder, s.tickets) && id < s.sessions
  {
  }

  lemma DropRemoteKeeps<C, L, D>(s: Sys<C, L, D>, id: Session)
    requires SysInv(s) && id in s.clients && id in s.w.sessions
    requires Awaits(s.clients[id].pc).None? && s.clients[id].joined && s.clients[id].teardowns == 0
    ensures SysInv(DropRemote(s, id))
  {
    hide SysInv;
    FitOf(s, id);
    var c := s.clients[id];
    SubmitKeeps(s, id, c.(pc := Leaving(s.tickets), teardowns := 1), Drop(id, s.tickets));
  }

  /** A client stops being blocked, or moves on without being blocked. */
  lemma MoveKeeps<C, L, D>(s: Sys<C, L, D>, id: Session, c: Client)
    requires SysInv(s) && id in s.clients && NoJobOf(s.chan, id) && !InQueue(s.w.pending, id)
    requires Awaits(c.pc).None? && ClientFits(id, c, s.w.sessions.Keys, s.w.holder, s.tickets)
    ensures SysInv(s.(clients := s.clients[id := c]))
  {
    var s' := s.(clients := s.clients[id := c]);
    MoveJobs(s, id, c);
    MoveMail(s, id, c);
    MoveClients(s, id, c);
    assert Outstanding(s') == Outstanding(s);
    hide ChanFits, QueueFits, MailFits, AllFit, AwaitAlone, Outstanding;
    assert TicketsExact(s');
  }

  lemma MoveJobs<C, L, D>(s: Sys<C, L, D>, id: Session, c: Client)
    requires ChanFits(s.chan, s.clients, s.w.sessions.Keys) && QueueFits(s.w.pending, s.clients)
    requires id in s.clients && NoJobOf(s.chan, id) && !InQueue(s.w.pending, id)
    ensures ChanFits(s.chan, s.clients[id := c], s.w.sessions.Keys) && QueueFits(s.w.pending, s.clients[id := c])
  {
    forall i | 0 <= i < |s.chan| ensures JobFits(s.chan[i], s.clients[id := c], s.w.sessions.Keys) {
      assert JobFits(s.chan[i], s.clients, s.w.sessions.Keys);
      assert s.chan[i].id != id;
    }
    forall i | 0 <= i < |s.w.pending| ensures QueuedFits(s.w.pending[i], s.clients[id := c]) {
      assert QueuedFits(s.w.pending[i], s.clients);
    }
  }

  lemma MoveClients<C, L, D>(s: Sys<C, L, D>, id: Session, c: Client)
    requires AllFit(s.clients, s.w.sessions.Keys, s.w.holder, s.tickets) && AwaitAlone(s.clients) && id in s.clients
    requires Awaits(c.pc).None? && ClientFits(id, c, s.w.sessions.Keys, s.w.holder, s.tickets)
    ensures AllFit(s.clients[id := c], s.w.sessions.Keys, s.w.holder, s.tickets) && AwaitAlone(s.clients[id := c])
  {
    hide ClientFits;
  }

  lemma MoveMail<C, L, D>(s: Sys<C, L, D>, id: Session, c: Client)
    requires MailFits(s.w.sent, s.clients, s.w.sessions.Keys, s.w.holder) && id in s.clients && Awaits(c.pc).None?
    ensures MailFits(s.w.sent, s.clients[id := c], s.w.sessions.Keys, s.w.holder)
  {
    forall i | 0 <= i < |s.w.sent| ensures SentFits(s.w.sent[i], s.clients[id := c], s.w.sessions.Keys, s.w.holder) {
      assert SentFits(s.w.sent[i], s.clients, s.w.sessions.Keys, s.w.holder);
    }
  }

  lemma HearKeeps<C, L, D>(s: Sys<C, L, D>, id: Session, i: nat)
    requires SysInv(s) && id in s.clients && i < |s.w.sent| && Awaits(s.clients[id].pc) == Some(s.w.sent[i].reply)
    ensures SysInv(s.(clients := s.clients[id := Heard(s.clients[id], s.w.sent[i].message)]))
    ensures Awaits(Heard(s.clients[id], s.w.sent[i].message).pc).None?
  {
    var c, m, live := s.clients[id], s.w.sent[i], s.w.sessions.Keys;
    assert SentFits(m, s.clients, live, s.w.holder);
    assert ClientFits(id, c, live, s.w.holder, s.tickets);
    HeardHasNoJob(s, id, i);
    MoveKeeps(s, id, Heard(c, m.message));
  }

  lemma HeardHasNoJob<C, L, D>(s: Sys<C, L, D>, id: Session, i: nat)
    requires SysInv(s) && id in s.clients && i < |s.w.sent| && Awaits(s.clients[id].pc) == Some(s.w.sent[i].reply)
    ensures NoJobOf(s.chan, id) && !InQueue(s.w.pending, id)
  {
    QueuedIsUnanswered(s);
    forall k | 0 <= k < |s.w.pending| ensures s.w.pending[k].id != id {
      assert QueuedFits(s.w.pending[k], s.clients);
      assert s.w.sent[i].reply != s.w.pending[k].reply;
    }
    forall k | 0 <= k < |s.chan| ensures s.chan[k].id != id {
      assert JobFits(s.chan[k], s.clients, s.w.sessions.Keys);
      JobUnanswered(s, k, i);
    }
  }

  lemma JobUnanswered<C, L, D>(s: Sys<C, L, D>, k: nat, i: nat)
    requires TicketsExact(s) && k < |s.chan| && i < |s.w.sent|
    ensures s.chan[k].reply != s.w.sent[i].reply
  {
    JobCounted(s.chan, k);
    SentCounted(s.w.sent, i);
    assert Outstanding(s)[s.chan[k].reply] <= 1;
  }

  lemma AcceptKeeps<C, L, D>(e: Engine<C, L, D>, s: Sys<C, L, D>, opens: bool)
    requires SysInv(s)
    ensures SysInv(Do(e, s, Accept(opens)))
  {
    var s1 := s.(sessions := s.sessions + 1);
    assert Outstanding(s1) == Outstanding(s);
    assert TicketsExact(s1);
    SubmitKeeps(s1, s.sessions, Client(Opening(s.tickets), true, false, 0), Open(s.sessions, s.tickets, opens));
  }

  lemma ReceiveKeeps<C, L, D>(e: Engine<C, L, D>, s: Sys<C, L, D>, id: Session, req: Request<C>)
    requires SysInv(s) && Enabled(s, Receive(id, req))
    ensures SysInv(Do(e, s, Receive(id, req)))
  {
    hide SysInv;
    FitOf(s, id);
    var c := s.clients[id];
    SubmitKeeps(s, id, c.(pc := Waiting(s.tickets, req.Close?), teardowns := c.teardowns + if req.Close? then 1 else 0),
                Req(id, req, s.tickets));
  }

  lemma ReplyKeeps<C, L, D>(e: Engine<C, L, D>, s: Sys<C, L, D>, a: Action<C>)
    requires SysInv(s) && Enabled(s, a) && (a.Greet? || a.Write? || a.Disconnect?)
    ensures SysInv(Do(e, s, a))
  {
    var c := s.clients[a.id];
    FitOf(s, a.id);
    hide SysInv;
    IdleHasNoJob(s, a.id);
    if a.Disconnect? || (!a.ok && !(a.Write? && c.pc.closing)) {
      DropRemoteKeeps(s, a.id);
    } else {
      MoveKeeps(s, a.id, Do(e, s, a).clients[a.id]);
    }
  }

  /** Every step of every client and of the worker keeps the invariant. */
  lemma StepKeeps<C, L, D>(e: Engine<C, L, D>, s: Sys<C, L, D>, a: Action<C>)
    requires SysInv(s) && Enabled(s, a)
    ensures SysInv(Do(e, s, a))
  {
    match a
    case Accept(opens) => AcceptKeeps(e, s, opens);
    case Work => WorkKeeps(e, s);
    case Hear(id, i) => HearKeeps(s, id, i);
    case Receive(id, req) => ReceiveKeeps(e, s, id, req);
    case _ => ReplyKeeps(e, s, a);
  }

  lemma {:induction false} RunKeeps<C, L, D>(e: Engine<C, L, D>, s: Sys<C, L, D>, actions: seq<Action<C>>)
    requires SysInv(s)
    ensures var r := Run(e, s, actions); r.Some? ==> SysInv(r.value)
    decreases |actions|
  {
    hide SysInv, Do;
    if actions != [] && Enabled(s, actions[0]) {
      StepKeeps(e, s, actions[0]);
      RunKeeps(e, Do(e, s, actions[0]), actions[1..]);
    }
  }

  lemma ReachableKeeps<C(!new), L, D>(e: Engine<C, L, D>, db: D, s: Sys<C, L, D>)
    requires Reachable(e, db, s)
    ensures SysInv(s)
  {
    var actions: seq<Action<C>> :| Run(e, Init(db), actions) == Some(s);
    var s0: Sys<C, L, D> := Init(db);
    assert TicketsExact(s0);
    RunKeeps(e, s0, actions);
  }
}
