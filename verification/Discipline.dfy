/** The worker fed by sessions that have at most one request outstanding. */
module Discipline {
  import opened Prelude
  import opened Engine
  import opened Script
  import opened Broker
  import opened BrokerInvariants

  /** The sessions in the queue are distinct and live, and the holder is not among them. */
  ghost predicate Disciplined<C, L, D>(w: W<C, L, D>) {
    && (forall i | 0 <= i < |w.pending| :: w.pending[i].id in w.sessions && w.holder != Some(w.pending[i].id))
    && (forall i, j | 0 <= i < j < |w.pending| :: w.pending[i].id != w.pending[j].id)
  }

  ghost predicate InQueue<C>(pending: seq<Pending<C>>, id: Session) {
    exists i | 0 <= i < |pending| :: pending[i].id == id
  }

  /** An answer a script or a compilation can give, telling the truth about who holds. */
  ghost predicate Truthful(r: Response, id: Session, holder: Option<Session>) {
    && (r.fault.Some? ==> OwnFault(r.fault.value))
    && (r.autocommit <==> holder != Some(id))
  }

  ghost predicate Answers<C>(m: Sent, p: Pending<C>, holder: Option<Session>) {
    m.reply == p.reply && m.id == p.id && m.message.Replied? && Truthful(m.message.response, m.id, holder)
  }

  /** Every message from index `n` on answers some entry of `pending`. */
  ghost predicate AnswerQueue<C>(sent: seq<Sent>, n: nat, pending: seq<Pending<C>>, holder: Option<Session>) {
    forall i | n <= i < |sent| :: exists k | 0 <= k < |pending| :: Answers(sent[i], pending[k], holder)
  }

  /** A job a session with nothing outstanding can submit. */
  ghost predicate Admissible<C, L, D>(w: W<C, L, D>, job: Job<C>) {
    && !InQueue(w.pending, job.id)
    && (job.Open? ==> job.id !in w.sessions)
    && (!job.Open? ==> job.id in w.sessions)
  }

  lemma DispatchAnswers<C, L, D>(e: Engine<C, L, D>, w: W<C, L, D>, p: Pending<C>, held: bool)
    requires Core(w) && MayRun(w, p.id) && p.id in w.sessions && !p.req.Close?
    ensures var w' := Dispatch(e, w, p, held);
            && |w'.sent| == |w.sent| + 1 && w.sent <= w'.sent
            && Answers(w'.sent[|w.sent|], p, w'.holder)
            && w'.pending == w.pending && w'.sessions.Keys == w.sessions.Keys
            && (w'.holder.None? || w'.holder == Some(p.id))
  {
    DispatchKeepsCore(e, w, p, held);
    NoOtherLock(w, p.id);
    var conn := w.sessions[p.id];
    match p.req
    case Exec(sql, params) =>
      FaultsWhenFree(e, sql, params, conn, w.db);
      hide RunScript;
    case Prepare(sql) =>
      FaultsWhenFree(e, sql, [], conn, w.db);
  }

  lemma {:induction false} PumpAnswers<C, L, D>(e: Engine<C, L, D>, w: W<C, L, D>)
    requires Core(w) && Disciplined(w)
    ensures var w' := Pump(e, w);
            && Disciplined(w') && w'.sessions.Keys == w.sessions.Keys
            && w.sent <= w'.sent && AnswerQueue(w'.sent, |w.sent|, w.pending, w'.holder)
            && (forall p | p in w'.pending :: p in w.pending)
            && (w.holder.Some? ==> w'.holder == w.holder)
            && (w'.holder.Some? ==> w'.holder == w.holder || InQueue(w.pending, w'.holder.value))
    decreases |w.pending|
  {
    if w.holder.None? && w.pending != [] {
      var p, rest := w.pending[0], w.(pending := w.pending[1..]);
      DispatchKeepsCore(e, rest, p, false);
      DispatchAnswers(e, rest, p, false);
      hide Dispatch;
      var w1 := Dispatch(e, rest, p, false);
      PumpAnswers(e, w1);
      FirstAnswerStands(e, w, w1);
    }
  }

  /** The answer to the front entry stays truthful whatever the rest of the run does. */
  lemma FirstAnswerStands<C, L, D>(e: Engine<C, L, D>, w: W<C, L, D>, w1: W<C, L, D>)
    requires Disciplined(w) && w.pending != [] && w1.pending == w.pending[1..]
    requires |w1.sent| == |w.sent| + 1 && w.sent <= w1.sent && Answers(w1.sent[|w.sent|], w.pending[0], w1.holder)
    requires w1.holder.None? || w1.holder == Some(w.pending[0].id)
    requires var w' := Pump(e, w1);
             && w1.sent <= w'.sent && AnswerQueue(w'.sent, |w1.sent|, w1.pending, w'.holder)
             && (w1.holder.Some? ==> w'.holder == w1.holder)
             && (w'.holder.Some? ==> w'.holder == w1.holder || InQueue(w1.pending, w'.holder.value))
    ensures var w' := Pump(e, w1);
            && AnswerQueue(w'.sent, |w.sent|, w.pending, w'.holder)
            && (w'.holder.Some? ==> InQueue(w.pending, w'.holder.value))
  {
    hide Pump;
    var w' := Pump(e, w1);
    assert forall k | 0 <= k < |w1.pending| :: w1.pending[k] == w.pending[k + 1];
    forall i | |w.sent| <= i < |w'.sent| ensures exists k | 0 <= k < |w.pending| ::
        Answers(w'.sent[i], w.pending[k], w'.holder) {
      if i == |w.sent| {
        assert w'.sent[i] == w1.sent[i];
        assert Answers(w'.sent[i], w.pending[0], w'.holder);
      } else {
        var k :| 0 <= k < |w1.pending| && Answers(w'.sent[i], w1.pending[k], w'.holder);
        assert Answers(w'.sent[i], w.pending[k + 1], w'.holder);
      }
    }
    if w'.holder.Some? {
      if w'.holder == w1.holder {
        assert w.pending[0].id == w'.holder.value;
      } else {
        var k :| 0 <= k < |w1.pending| && w1.pending[k].id == w'.holder.value;
        assert w.pending[k + 1].id == w'.holder.value;
      }
    }
  }

  /** Dropping a session that is not queued leaves the queue alone and refuses nobody. */
  lemma {:induction false} NobodyRefused<C>(pending: seq<Pending<C>>, id: Session)
    requires !InQueue(pending, id)
    ensures Without(pending, id) == pending && Refusals(pending, id) == []
  {
    if pending != [] {
      assert pending[0].id != id;
      assert forall i | 0 <= i < |pending[1..]| :: pending[1..][i] == pending[i + 1];
      NobodyRefused(pending[1..], id);
    }
  }

  /** The message that answers the job itself. */
  ghost predicate AnswersJob<C>(m: Sent, job: Job<C>, holder: Option<Session>) {
    && m.reply == job.reply && m.id == job.id
    && match job
       case Open(_, _, opens) => m.message == Opened(opens)
       case Drop(_, _) => m.message == Dropped
       case Req(_, req, _) =>
         m.message.Replied?
         && if req.Close? then m.message.response == CLOSED_RESPONSE else Truthful(m.message.response, m.id, holder)
  }

  function SessionsAfter<C>(live: set<Session>, job: Job<C>): set<Session> {
    match job
    case Open(id, _, opens) => if opens then live + {id} else live
    case Drop(id, _) => live - {id}
    case Req(id, req, _) => if req.Close? then live - {id} else live
  }

  lemma ActAnswers<C, L, D>(e: Engine<C, L, D>, w: W<C, L, D>, job: Job<C>)
    requires Inv(w) && Disciplined(w) && Admissible(w, job) && !Waits(w, job)
    ensures var w' := Act(e, w, job);
            && Core(w') && Disciplined(w') && w'.pending == w.pending
            && w'.sessions.Keys == SessionsAfter(w.sessions.Keys, job)
            && |w'.sent| == |w.sent| + 1 && w.sent <= w'.sent && AnswersJob(w'.sent[|w.sent|], job, w'.holder)
            && (w'.holder == w.holder || w.holder == Some(job.id) || (w.holder.None? && w'.holder == Some(job.id)))
            && (w'.holder.Some? && w'.holder != w.holder ==> w'.holder == Some(job.id))
            && (job.Open? ==> w'.holder != Some(job.id))
  {
    hide RunExec, RunPrepare, Without, Refusals, Truthful;
    ActKeepsCore(e, w, job);
    match job
    case Open(id, reply, opens) =>
    case Drop(id, reply) =>
      NobodyRefused(w.pending, id);
    case Req(id, req, reply) =>
      if req.Close? {
        NobodyRefused(w.pending, id);
      } else {
        DispatchAnswers(e, w, Pending(id, req, reply), w.holder == Some(id));
      }
  }

  /** What one job does to a disciplined worker: the queue only loses entries, apart from the job
      itself if it has to wait; every new message answers the job or a queued entry, truthfully;
      and a session that is neither the job's nor queued keeps or loses the holdership it had. */
  ghost predicate Orderly<C, L, D>(w: W<C, L, D>, job: Job<C>, w': W<C, L, D>) {
    && Disciplined(w') && w'.sessions.Keys == SessionsAfter(w.sessions.Keys, job)
    && (forall p | p in w'.pending ::
        p in w.pending || (job.Req? && !job.req.Close? && p == Pending(job.id, job.req, job.reply)))
    && w.sent <= w'.sent
    && (forall i | |w.sent| <= i < |w'.sent| ::
          AnswersJob(w'.sent[i], job, w'.holder)
          || exists k | 0 <= k < |w.pending| :: Answers(w'.sent[i], w.pending[k], w'.holder))
    && (forall id | id != job.id && !InQueue(w.pending, id) :: w'.holder == Some(id) <==> w.holder == Some(id))
    && (job.Open? ==> w'.holder != Some(job.id))
  }

  lemma WaitingIsOrderly<C, L, D>(e: Engine<C, L, D>, w: W<C, L, D>, job: Job<C>)
    requires Inv(w) && Disciplined(w) && Admissible(w, job) && Waits(w, job)
    ensures Orderly(w, job, Enqueue(w, job))
  {
    assert forall i | 0 <= i < |w.pending| :: w.pending[i].id != job.id;
  }

  lemma HandleIsOrderly<C, L, D>(e: Engine<C, L, D>, w: W<C, L, D>, job: Job<C>)
    requires Inv(w) && Disciplined(w) && Admissible(w, job)
    ensures Orderly(w, job, Handle(e, w, job))
  {
    if Waits(w, job) {
      WaitingIsOrderly(e, w, job);
    } else {
      ActAnswers(e, w, job);
      PumpAnswers(e, Act(e, w, job));
      ServingIsOrderly(e, w, job, Act(e, w, job), Pump(e, Act(e, w, job)));
    }
  }

  lemma ServingIsOrderly<C, L, D>(e: Engine<C, L, D>, w: W<C, L, D>, job: Job<C>, w1: W<C, L, D>, w': W<C, L, D>)
    requires Disciplined(w) && Admissible(w, job) && w1.pending == w.pending
    requires w1.sessions.Keys == SessionsAfter(w.sessions.Keys, job)
    requires |w1.sent| == |w.sent| + 1 && w.sent <= w1.sent && AnswersJob(w1.sent[|w.sent|], job, w1.holder)
    requires w1.holder == w.holder || w.holder == Some(job.id) || (w.holder.None? && w1.holder == Some(job.id))
    requires w1.holder.Some? && w1.holder != w.holder ==> w1.holder == Some(job.id)
    requires job.Open? ==> w1.holder != Some(job.id)
    requires Disciplined(w') && w'.sessions.Keys == w1.sessions.Keys
    requires w1.sent <= w'.sent && AnswerQueue(w'.sent, |w1.sent|, w1.pending, w'.holder)
    requires forall p | p in w'.pending :: p in w1.pending
    requires w1.holder.Some? ==> w'.holder == w1.holder
    requires w'.holder.Some? ==> w'.holder == w1.holder || InQueue(w1.pending, w'.holder.value)
    ensures Orderly(w, job, w')
  {
    assert w'.sent[|w.sent|] == w1.sent[|w.sent|];
    assert AnswersJob(w'.sent[|w.sent|], job, w'.holder);
  }
}
