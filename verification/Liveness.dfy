/** What the invariant of the whole system gives: no deadlock, settling, single replies, and the
    agreement between the shim's cached autocommit flag and the broker's holder. */
module Liveness {
  import opened Prelude
  import opened Engine
  import opened Broker
  import opened BrokerInvariants
  import opened Discipline
  import opened Clients

  // ---------- finding the one place of a reply channel ----------

  lemma {:induction false} FindJob<C>(jobs: seq<Job<C>>, t: Ticket) returns (i: nat)
    requires JobTickets(jobs)[t] > 0
    ensures i < |jobs| && jobs[i].reply == t
    decreases |jobs|
  {
    if jobs[0].reply == t {
      i := 0;
    } else {
      i := FindJob(jobs[1..], t);
      i := i + 1;
    }
  }

  lemma {:induction false} FindPending<C>(ps: seq<Pending<C>>, t: Ticket) returns (i: nat)
    requires PendingTickets(ps)[t] > 0
    ensures i < |ps| && ps[i].reply == t
    decreases |ps|
  {
    if ps[0].reply == t {
      i := 0;
    } else {
      i := FindPending(ps[1..], t);
      i := i + 1;
    }
  }

  lemma {:induction false} FindSent(ss: seq<Sent>, t: Ticket) returns (i: nat)
    requires SentTickets(ss)[t] > 0
    ensures i < |ss| && ss[i].reply == t
    decreases |ss|
  {
    if ss[0].reply == t {
      i := 0;
    } else {
      i := FindSent(ss[1..], t);
      i := i + 1;
    }
  }

  /** Some step is possible that needs nothing from a remote process. */
  ghost predicate CanStep<C(!new), L, D>(s: Sys<C, L, D>) {
    exists a: Action<C> :: Internal(a) && Enabled(s, a)
  }

  /** The client has a job in the channel, or an answer on its way to it, or a message to write. */
  ghost predicate InFlight<C, L, D>(s: Sys<C, L, D>, id: Session)
    requires id in s.clients
  {
    || (exists k | 0 <= k < |s.chan| :: s.chan[k].id == id)
    || (exists i | 0 <= i < |s.w.sent| :: Awaits(s.clients[id].pc) == Some(s.w.sent[i].reply))
    || s.clients[id].pc.Greeting? || s.clients[id].pc.Answering?
  }

  lemma InFlightCanStep<C(!new), L, D>(s: Sys<C, L, D>, id: Session)
    requires id in s.clients && InFlight(s, id)
    ensures CanStep(s)
  {
    if k :| 0 <= k < |s.chan| && s.chan[k].id == id {
      assert Enabled(s, Work) && Internal(Action<C>.Work);
    } else if s.clients[id].pc.Greeting? {
      assert Enabled(s, Greet(id, true)) && Internal(Action<C>.Greet(id, true));
    } else if s.clients[id].pc.Answering? {
      assert Enabled(s, Write(id, true)) && Internal(Action<C>.Write(id, true));
    } else {
      var i :| 0 <= i < |s.w.sent| && Awaits(s.clients[id].pc) == Some(s.w.sent[i].reply);
      assert Enabled(s, Hear(id, i)) && Internal(Action<C>.Hear(id, i));
    }
  }

  /** A blocked client's job is in the channel, or queued, or its answer has been sent. */
  lemma BlockedClient<C, L, D>(s: Sys<C, L, D>, id: Session)
    requires SysInv(s) && id in s.clients && Awaits(s.clients[id].pc).Some?
    ensures InQueue(s.w.pending, id) || InFlight(s, id)
  {
    hide JobTickets, PendingTickets, SentTickets;
    var t := Awaits(s.clients[id].pc).value;
    FitOf(s, id);
    assert Outstanding(s)[t] == 1;
    if SentTickets(s.w.sent)[t] > 0 {
      var i := FindSent(s.w.sent, t);
    } else if PendingTickets(s.w.pending)[t] > 0 {
      var i := FindPending(s.w.pending, t);
      assert QueuedFits(s.w.pending[i], s.clients);
    } else {
      var i := FindJob(s.chan, t);
      assert JobFits(s.chan[i], s.clients, s.w.sessions.Keys);
    }
  }

  // ---------- no deadlock ----------

  /** Whenever a session is queued there is a holder; it is live and not queued itself; and either
      its client sits at its socket or it has a job or a reply in flight, so that a step is possible. */
  lemma QueuedBehindLiveHolder<C(!new), L, D>(e: Engine<C, L, D>, db: D, s: Sys<C, L, D>)
    requires Reachable(e, db, s) && s.w.pending != []
    ensures s.w.holder.Some?
    ensures var h := s.w.holder.value;
            && h in s.w.sessions && h in s.clients && !InQueue(s.w.pending, h)
            && (s.clients[h].pc.Reading? || (InFlight(s, h) && CanStep(s)))
  {
    ReachableKeeps(e, db, s);
    var h := s.w.holder.value;
    FitOf(s, h);
    if Awaits(s.clients[h].pc).Some? {
      BlockedClient(s, h);
    }
    if InFlight(s, h) {
      InFlightCanStep(s, h);
    }
  }

  /** When the system cannot move by itself, every client is gone, idle at its socket, or queued
      behind a holder that is idle at its socket. */
  lemma StuckOnlyBehindIdleHolder<C(!new), L, D>(e: Engine<C, L, D>, db: D, s: Sys<C, L, D>, id: Session)
    requires Reachable(e, db, s) && !CanStep(s) && id in s.clients
    ensures s.clients[id].pc.Gone? || s.clients[id].pc.Reading? || InQueue(s.w.pending, id)
    ensures InQueue(s.w.pending, id) ==>
              s.w.holder.Some? && s.w.holder.value in s.clients && s.clients[s.w.holder.value].pc.Reading?
  {
    ReachableKeeps(e, db, s);
    if InQueue(s.w.pending, id) {
      QueuedBehindLiveHolder(e, db, s);
    } else if Awaits(s.clients[id].pc).Some? {
      BlockedClient(s, id);
    }
    if InFlight(s, id) {
      InFlightCanStep(s, id);
    }
  }

  // ---------- the system settles ----------

  function Weight(pc: PC): nat {
    match pc
    case Opening(_) => 4
    case Greeting => 3
    case Waiting(_, _) => 4
    case Answering(_, _) => 3
    case Leaving(_) => 1
    case _ => 0
  }

  function Weights(clients: map<Session, Client>, n: nat): nat {
    if n == 0 then 0
    else Weights(clients, n - 1) + if n - 1 in clients then Weight(clients[n - 1].pc) else 0
  }

  /** How many steps the system can still take by itself. */
  function Potential<C, L, D>(s: Sys<C, L, D>): nat {
    |s.chan| + Weights(s.clients, s.sessions)
  }

  lemma {:induction false} WeightsUpdate(clients: map<Session, Client>, n: nat, id: Session, c: Client)
    requires id in clients
    ensures Weights(clients[id := c], n) == Weights(clients, n) + if id < n then Weight(c.pc) - Weight(clients[id].pc)
            else 0
  {
    if n > 0 {
      WeightsUpdate(clients, n - 1, id, c);
    }
  }

  lemma MailOf<C, L, D>(s: Sys<C, L, D>, i: nat)
    requires SysInv(s) && i < |s.w.sent|
    ensures SentFits(s.w.sent[i], s.clients, s.w.sessions.Keys, s.w.holder)
  {
  }

  lemma InternalStepSettles<C, L, D>(e: Engine<C, L, D>, s: Sys<C, L, D>, a: Action<C>)
    requires SysInv(s) && Enabled(s, a) && Internal(a)
    ensures Potential(Do(e, s, a)) < Potential(s)
  {
    hide SysInv, ClientFits;
    if !a.Work? {
      assert ClientFits(a.id, s.clients[a.id], s.w.sessions.Keys, s.w.holder, s.tickets) by { FitOf(s, a.id); }
      assert a.id < s.sessions by { FitOf(s, a.id); }
      var c := Do(e, s, a).clients[a.id];
      if a.Hear? {
        HearKeeps(s, a.id, a.i);
        MailOf(s, a.i);
      }
      WeightsUpdate(s.clients, s.sessions, a.id, c);
    }
  }

  /** Without new connections, requests and disconnections, the system stops after at most
      `Potential(s)` steps. */
  lemma {:induction false} SystemSettles<C, L, D>(e: Engine<C, L, D>, s: Sys<C, L, D>, actions: seq<Action<C>>)
    requires SysInv(s) && Run(e, s, actions).Some?
    requires forall i | 0 <= i < |actions| :: Internal(actions[i])
    ensures |actions| <= Potential(s)
    decreases |actions|
  {
    hide SysInv, Do, Potential;
    if actions != [] {
      InternalStepSettles(e, s, actions[0]);
      StepKeeps(e, s, actions[0]);
      SystemSettles(e, Do(e, s, actions[0]), actions[1..]);
    }
  }

  // ---------- replies and teardown ----------

  /** In every reachable state: every reply channel handed out is in exactly one place and written
      to at most once; no answer says that the session is missing, closed or busy; no session asks
      for its teardown twice, and one that is gone after opening has asked exactly once. */
  lemma OneReplyOneTeardown<C(!new), L, D>(e: Engine<C, L, D>, db: D, s: Sys<C, L, D>)
    requires Reachable(e, db, s)
    ensures forall t: Ticket | t < s.tickets ::
            (SentTickets(s.w.sent) + PendingTickets(s.w.pending) + JobTickets(s.chan))[t] == 1
    ensures forall i | 0 <= i < |s.w.sent| && s.w.sent[i].message.Replied? ::
              s.w.sent[i].message.response.fault !in {Some(NoSession), Some(SessionClosed), Some(Busy)}
    ensures forall id | id in s.clients :: s.clients[id].teardowns <= 1
    ensures forall id | id in s.clients && s.clients[id].pc.Gone? ::
              id !in s.w.sessions && s.clients[id].teardowns == if s.clients[id].joined then 1 else 0
  {
    ReachableKeeps(e, db, s);
    forall t: Ticket | t < s.tickets
        ensures (SentTickets(s.w.sent) + PendingTickets(s.w.pending) + JobTickets(s.chan))[t] == 1 {
      assert Outstanding(s)[t] == 1;
    }
    forall i | 0 <= i < |s.w.sent| && s.w.sent[i].message.Replied?
      ensures s.w.sent[i].message.response.fault !in {Some(NoSession), Some(SessionClosed), Some(Busy)}
    {
      assert SentFits(s.w.sent[i], s.clients, s.w.sessions.Keys, s.w.holder);
    }
    forall id | id in s.clients
      ensures s.clients[id].teardowns <= 1
      ensures s.clients[id].pc.Gone? ==>
                id !in s.w.sessions && s.clients[id].teardowns == if s.clients[id].joined then 1 else 0
    {
      FitOf(s, id);
    }
  }

  // ---------- the cached autocommit flag ----------

  /** Whenever a session has no call outstanding, its cached flag says "in a transaction" exactly if
      it is the broker's holder; so at most one idle session reports an open transaction. */
  lemma AutocommitMirror<C(!new), L, D>(e: Engine<C, L, D>, db: D, s: Sys<C, L, D>)
    requires Reachable(e, db, s)
    ensures forall id | id in s.clients && s.clients[id].pc.Reading? :: !s.clients[id].cached <==>
            s.w.holder == Some(id)
    ensures forall a, b | a in s.clients && b in s.clients && s.clients[a].pc.Reading? && s.clients[b].pc.Reading?
                          && !s.clients[a].cached && !s.clients[b].cached :: a == b
  {
    ReachableKeeps(e, db, s);
    forall id | id in s.clients && s.clients[id].pc.Reading? ensures !s.clients[id].cached <==> s.w.holder == Some(id) {
      FitOf(s, id);
    }
  }
}
