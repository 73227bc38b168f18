/** Workers that send each turn after the answer to the last: their answered turns are in program
    order, so the audit theorem needs no more than the jobs. */
module HammerOrder {
  import opened Prelude
  import opened Engine
  import opened HammerBroker
  import B = Broker
  import H = Hammer
  import A = HammerAudit
  import I = BrokerInvariants

  /** The turn a job asks for. */
  function AskedTurn(turns: Turns, job: B.Job<H.Stmt>): seq<H.Op> {
    if job.Req? && job.req.Exec? && turns(job.reply).Some? then [turns(job.reply).value] else []
  }

  /** The turns the workers ask for, in the order their jobs arrive. */
  function Asked(turns: Turns, jobs: seq<B.Job<H.Stmt>>): seq<H.Op> {
    if jobs == [] then [] else AskedTurn(turns, jobs[0]) + Asked(turns, jobs[1..])
  }

  /** A worker's turns so far, all of them answered without a fault. */
  ghost predicate AllAnswered(turns: Turns, asked: seq<H.Op>, sent: seq<B.Sent>, worker: nat) {
    A.Projection(asked, worker) == A.Projection(Answered(turns, sent), worker)
  }

  /** A worker asks for a turn only when every turn it asked for before was answered without a fault. */
  ghost predicate AnswerFirst<L>(e: Engine<H.Stmt, L, File>, turns: Turns, asked: seq<H.Op>,
                                 w: B.W<H.Stmt, L, File>, jobs: seq<B.Job<H.Stmt>>)
    decreases |jobs|
  {
    jobs == []
    || (var turn := AskedTurn(turns, jobs[0]);
        && (turn != [] ==> AllAnswered(turns, asked, w.sent, turn[0].worker))
        && AnswerFirst(e, turns, asked + turn, B.Handle(e, w, jobs[0]), jobs[1..]))
  }

  // ---------- the invariant ----------

  /** The worker's last turn is asked for and not answered. */
  ghost predicate Awaits(asked: seq<H.Op>, answered: seq<H.Op>, op: H.Op) {
    A.Projection(asked, op.worker) == A.Projection(answered, op.worker) + [op]
  }

  ghost predicate DistinctWorkers(turns: Turns, pending: seq<B.Pending<H.Stmt>>) {
    forall i, j | 0 <= i < j < |pending| && turns(pending[i].reply).Some? && turns(pending[j].reply).Some? ::
      turns(pending[i].reply).value.worker != turns(pending[j].reply).value.worker
  }

  ghost predicate QueueLags(turns: Turns, pending: seq<B.Pending<H.Stmt>>, asked: seq<H.Op>, answered: seq<H.Op>) {
    && (forall i | 0 <= i < |pending| && turns(pending[i].reply).Some? ::
          Awaits(asked, answered, turns(pending[i].reply).value))
    && DistinctWorkers(turns, pending)
  }

  /** A worker's answered turns are all it asked for, or all but the last. */
  ghost predicate WorkerLags(asked: seq<H.Op>, answered: seq<H.Op>, worker: nat) {
    var a, b := A.Projection(asked, worker), A.Projection(answered, worker);
    b == a || (a != [] && b == a[..|a| - 1])
  }

  ghost predicate Lags<L>(turns: Turns, asked: seq<H.Op>, w: B.W<H.Stmt, L, File>) {
    && QueueLags(turns, w.pending, asked, Answered(turns, w.sent))
    && forall worker: nat :: WorkerLags(asked, Answered(turns, w.sent), worker)
  }

  lemma ProjectionGrows(order: seq<H.Op>, op: H.Op, worker: nat)
    ensures A.Projection(order + [op], worker) == A.Projection(order, worker) + if op.worker == worker then [op] else []
  {
    assert (order + [op])[..|order + [op]| - 1] == order;
  }

  lemma {:induction false} WithoutDistinct(turns: Turns, pending: seq<B.Pending<H.Stmt>>, id: B.Session)
    requires DistinctWorkers(turns, pending)
    ensures DistinctWorkers(turns, B.Without(pending, id))
  {
    if pending != [] {
      var p, rest, kept := pending[0], pending[1..], B.Without(pending[1..], id);
      WithoutDistinct(turns, rest, id);
      I.WithoutKeeps(rest, id);
      NoPrefix(kept);
      assert pending == [p] + rest;
      if p.id != id {
        OneMoreDistinct(turns, p, rest, kept);
      }
    }
  }

  lemma OneMoreDistinct(turns: Turns, p: B.Pending<H.Stmt>, rest: seq<B.Pending<H.Stmt>>, kept: seq<B.Pending<H.Stmt>>)
    requires DistinctWorkers(turns, [p] + rest) && DistinctWorkers(turns, kept) && forall q | q in kept :: q in rest
    ensures DistinctWorkers(turns, [p] + kept)
  {
    forall j | 0 <= j < |kept| && turns(p.reply).Some? && turns(kept[j].reply).Some?
      ensures turns(p.reply).value.worker != turns(kept[j].reply).value.worker
    {
      assert kept[j] in rest;
      var k :| 0 <= k < |rest| && rest[k] == kept[j];
      assert ([p] + rest)[0] == p && ([p] + rest)[k + 1] == kept[j];
    }
  }

  lemma WithoutLags(turns: Turns, pending: seq<B.Pending<H.Stmt>>, id: B.Session, asked: seq<H.Op>, answered: seq<H.Op>)
    requires QueueLags(turns, pending, asked, answered)
    ensures QueueLags(turns, B.Without(pending, id), asked, answered)
  {
    hide Awaits, B.Without;
    WithoutDistinct(turns, pending, id);
    I.WithoutKeeps(pending, id);
    hide DistinctWorkers;
    var kept := B.Without(pending, id);
    forall j | 0 <= j < |kept| && turns(kept[j].reply).Some?
        ensures Awaits(asked, answered, turns(kept[j].reply).value) {
      assert kept[j] in pending;
    }
  }

  /** The answer to a turn nobody else waits for. */
  lemma AnswerLags(turns: Turns, pending: seq<B.Pending<H.Stmt>>, asked: seq<H.Op>, answered: seq<H.Op>, op: H.Op)
    requires QueueLags(turns, pending, asked, answered) && Awaits(asked, answered, op)
    requires forall worker: nat :: WorkerLags(asked, answered, worker)
    requires forall i | 0 <= i < |pending| && turns(pending[i].reply).Some? ::
             turns(pending[i].reply).value.worker != op.worker
    ensures QueueLags(turns, pending, asked, answered + [op])
    ensures forall worker: nat :: WorkerLags(asked, answered + [op], worker)
  {
    forall worker: nat ensures WorkerLags(asked, answered + [op], worker) {
      ProjectionGrows(answered, op, worker);
      NoSuffix(A.Projection(answered, worker));
      assert WorkerLags(asked, answered, worker);
    }
    forall i | 0 <= i < |pending| && turns(pending[i].reply).Some?
      ensures Awaits(asked, answered + [op], turns(pending[i].reply).value)
    {
      var other := turns(pending[i].reply).value;
      assert Awaits(asked, answered, other);
      ProjectionGrows(answered, op, other.worker);
      NoSuffix(A.Projection(answered, other.worker));
    }
  }

  lemma DispatchLags<L>(e: Engine<H.Stmt, L, File>, turns: Turns, asked: seq<H.Op>, w: B.W<H.Stmt, L, File>,
                        p: B.Pending<H.Stmt>, held: bool)
    requires Lags(turns, asked, w) && !p.req.Close?
    requires turns(p.reply).Some? ==> Awaits(asked, Answered(turns, w.sent), turns(p.reply).value)
    requires forall i | 0 <= i < |w.pending| && turns(p.reply).Some? && turns(w.pending[i].reply).Some? ::
               turns(w.pending[i].reply).value.worker != turns(p.reply).value.worker
    ensures Lags(turns, asked, B.Dispatch(e, w, p, held))
  {
    hide B.RunExec, B.RunPrepare, Answered, QueueLags, WorkerLags, Awaits;
    OneAnswer(e, w, p, held);
    var w' := B.Dispatch(e, w, p, held);
    AnsweredGrows(turns, w.sent, w'.sent[|w.sent|]);
    NoSuffix(Answered(turns, w.sent));
    if AnsweredTurn(turns, w'.sent[|w.sent|]) != [] {
      AnswerLags(turns, w.pending, asked, Answered(turns, w.sent), turns(p.reply).value);
    }
  }

  lemma OneAnswer<L>(e: Engine<H.Stmt, L, File>, w: B.W<H.Stmt, L, File>, p: B.Pending<H.Stmt>, held: bool)
    requires !p.req.Close?
    ensures var w' := B.Dispatch(e, w, p, held);
            w'.pending == w.pending && |w'.sent| == |w.sent| + 1 && w'.sent == w.sent + [w'.sent[|w.sent|]]
            && w'.sent[|w.sent|].reply == p.reply
  {
  }

  lemma DropLags<L>(turns: Turns, asked: seq<H.Op>, w: B.W<H.Stmt, L, File>, id: B.Session)
    requires Lags(turns, asked, w)
    ensures Lags(turns, asked, B.DropSession(w, id))
  {
    WithoutLags(turns, w.pending, id, asked, Answered(turns, w.sent));
    RefusalsAnswerNothing(turns, w.sent, w.pending, id);
    hide QueueLags, WorkerLags, Answered;
  }

  lemma {:induction false} PumpLags<L>(e: Engine<H.Stmt, L, File>, turns: Turns, asked: seq<H.Op>,
                                       w: B.W<H.Stmt, L, File>)
    requires Lags(turns, asked, w) && forall i | 0 <= i < |w.pending| :: !w.pending[i].req.Close?
    ensures Lags(turns, asked, B.Pump(e, w))
    decreases |w.pending|
  {
    hide B.Dispatch, Answered, WorkerLags, Awaits;
    if w.holder.None? && w.pending != [] {
      var p, rest := w.pending[0], w.(pending := w.pending[1..]);
      B.DispatchShrinksQueue(e, rest, p, false);
      OneAnswer(e, rest, p, false);
      DispatchLags(e, turns, asked, rest, p, false);
      PumpLags(e, turns, asked, B.Dispatch(e, rest, p, false));
    }
  }

  /** A worker all of whose turns are answered asks for one more. */
  lemma AskingLags<L>(turns: Turns, asked: seq<H.Op>, w: B.W<H.Stmt, L, File>, op: H.Op)
    requires Lags(turns, asked, w) && AllAnswered(turns, asked, w.sent, op.worker)
    ensures Lags(turns, asked + [op], w) && Awaits(asked + [op], Answered(turns, w.sent), op)
    ensures forall i | 0 <= i < |w.pending| && turns(w.pending[i].reply).Some? ::
            turns(w.pending[i].reply).value.worker != op.worker
  {
    var answered := Answered(turns, w.sent);
    hide Answered;
    ProjectionGrows(asked, op, op.worker);
    forall i | 0 <= i < |w.pending| && turns(w.pending[i].reply).Some?
      ensures turns(w.pending[i].reply).value.worker != op.worker
      ensures Awaits(asked + [op], answered, turns(w.pending[i].reply).value)
    {
      var other := turns(w.pending[i].reply).value;
      assert Awaits(asked, answered, other);
      ProjectionGrows(asked, op, other.worker);
      NoSuffix(A.Projection(asked, other.worker));
    }
    forall worker: nat ensures WorkerLags(asked + [op], answered, worker) {
      assert WorkerLags(asked, answered, worker);
      ProjectionGrows(asked, op, worker);
      NoSuffix(A.Projection(asked, worker));
      assert (A.Projection(asked, worker) + [op])[..|A.Projection(asked, worker)|] == A.Projection(asked, worker);
    }
  }

  lemma HandleLags<L>(e: Engine<H.Stmt, L, File>, turns: Turns, asked: seq<H.Op>, w: B.W<H.Stmt, L, File>,
                      job: B.Job<H.Stmt>)
    requires Lags(turns, asked, w) && JobFits(turns, job) && I.Inv(w) && I.OpensFresh(w, job)
    requires AskedTurn(turns, job) != [] ==> AllAnswered(turns, asked, w.sent, AskedTurn(turns, job)[0].worker)
    ensures Lags(turns, asked + AskedTurn(turns, job), B.Handle(e, w, job))
  {
    hide Answered, QueueLags, WorkerLags, Awaits, AllAnswered, B.Dispatch, B.DropSession, B.Pump, I.Inv;
    var asked' := asked + AskedTurn(turns, job);
    NoSuffix(asked);
    if AskedTurn(turns, job) != [] {
      AskingLags(turns, asked, w, turns(job.reply).value);
    }
    if B.Waits(w, job) {
      EnqueueLags(turns, asked', w, job);
    } else {
      ActLags(e, turns, asked', w, job);
      I.ActKeepsCore(e, w, job);
      PumpLags(e, turns, asked', B.Act(e, w, job));
    }
  }

  lemma EnqueueLags<L>(turns: Turns, asked: seq<H.Op>, w: B.W<H.Stmt, L, File>, job: B.Job<H.Stmt>)
    requires Lags(turns, asked, w) && job.Req?
    requires turns(job.reply).Some? ==> Awaits(asked, Answered(turns, w.sent), turns(job.reply).value)
    requires forall i | 0 <= i < |w.pending| && turns(job.reply).Some? && turns(w.pending[i].reply).Some? ::
               turns(w.pending[i].reply).value.worker != turns(job.reply).value.worker
    ensures Lags(turns, asked, B.Enqueue(w, job))
  {
    hide Answered, WorkerLags, Awaits;
  }

  lemma ActLags<L>(e: Engine<H.Stmt, L, File>, turns: Turns, asked: seq<H.Op>, w: B.W<H.Stmt, L, File>,
                   job: B.Job<H.Stmt>)
    requires Lags(turns, asked, w) && JobFits(turns, job)
    requires AskedTurn(turns, job) != [] ==> Awaits(asked, Answered(turns, w.sent), turns(job.reply).value)
    requires forall i | 0 <= i < |w.pending| && AskedTurn(turns, job) != [] && turns(w.pending[i].reply).Some? ::
               turns(w.pending[i].reply).value.worker != turns(job.reply).value.worker
    ensures Lags(turns, asked, B.Act(e, w, job))
  {
    hide Answered, QueueLags, WorkerLags, Awaits, B.RunExec, B.RunPrepare, B.DropSession;
    match job {
      case Open(id, reply, opens) =>
        AnsweredGrows(turns, w.sent, B.Sent(reply, id, B.Opened(opens)));
        NoSuffix(Answered(turns, w.sent));
      case Drop(id, reply) =>
        DropLags(turns, asked, w, id);
        AnsweredGrows(turns, B.DropSession(w, id).sent, B.Sent(reply, id, B.Dropped));
        NoSuffix(Answered(turns, B.DropSession(w, id).sent));
      case Req(id, req, reply) =>
        if req.Close? {
          DropLags(turns, asked, w, id);
          AnsweredGrows(turns, B.DropSession(w, id).sent, B.Sent(reply, id, B.Replied(CLOSED_RESPONSE)));
          NoSuffix(Answered(turns, B.DropSession(w, id).sent));
        } else {
          DispatchLags(e, turns, asked, w, B.Pending(id, req, reply), w.holder == Some(id));
        }
    }
  }

  lemma {:induction false} JobsLag<L>(e: Engine<H.Stmt, L, File>, turns: Turns, asked: seq<H.Op>,
                                      w: B.W<H.Stmt, L, File>,
                                      jobs: seq<B.Job<H.Stmt>>)
    requires Lags(turns, asked, w) && I.Inv(w) && I.FreshOpens(w.sessions.Keys, jobs)
    requires (forall i | 0 <= i < |jobs| :: JobFits(turns, jobs[i])) && AnswerFirst(e, turns, asked, w, jobs)
    ensures Lags(turns, asked + Asked(turns, jobs), B.RunJobs(e, w, jobs))
    decreases |jobs|
  {
    hide Lags, I.Inv, B.Handle, JobFits, AskedTurn, AllAnswered;
    if jobs == [] {
      NoSuffix(asked);
    } else {
      var turn, w' := AskedTurn(turns, jobs[0]), B.Handle(e, w, jobs[0]);
      HandleLags(e, turns, asked, w, jobs[0]);
      I.HandleKeepsInv(e, w, jobs[0]);
      I.FreshOpensRest(w.sessions.Keys, w'.sessions.Keys, jobs);
      Assoc(asked, turn, Asked(turns, jobs[1..]));
      JobsLag(e, turns, asked + turn, w', jobs[1..]);
    }
  }

  // ---------- the theorems ----------

  lemma LaggingInterleaves(asked: seq<H.Op>, answered: seq<H.Op>)
    requires A.Interleaves(asked) && forall worker: nat :: WorkerLags(asked, answered, worker)
    ensures A.Interleaves(answered)
  {
    hide A.Projection, H.ValidProgram;
    forall worker: nat ensures H.ValidProgram(worker, A.Projection(answered, worker)) {
      assert WorkerLags(asked, answered, worker);
      A.ProjectionIsValid(asked, worker);
      if A.Projection(asked, worker) != [] {
        H.ProgramFront(worker, A.Projection(asked, worker));
      }
    }
  }

  /** Workers that send their program in order, each turn after the answer to the last, have their
      answered turns in program order, whatever fails, waits or disconnects. */
  lemma AnsweredInOrder<L>(e: Engine<H.Stmt, L, File>, turns: Turns, jobs: seq<B.Job<H.Stmt>>)
    requires I.FreshOpens({}, jobs) && forall i | 0 <= i < |jobs| :: JobFits(turns, jobs[i])
    requires A.Interleaves(Asked(turns, jobs)) && AnswerFirst(e, turns, [], B.Start(H.EMPTY), jobs)
    ensures A.Interleaves(Answered(turns, B.RunJobs(e, B.Start(H.EMPTY), jobs).sent))
  {
    var w: B.W<H.Stmt, L, File> := B.Start(H.EMPTY);
    assert Lags(turns, [], w) && I.Inv(w);
    NoPrefix(Asked(turns, jobs));
    hide A.Interleaves, B.RunJobs, JobFits, Asked, AnswerFirst, WorkerLags, Answered, QueueLags;
    JobsLag(e, turns, [], w, jobs);
    LaggingInterleaves(Asked(turns, jobs), Answered(turns, B.RunJobs(e, w, jobs).sent));
  }

  /** The audit theorem: for any number of workers sending their programs in order, in any
      interleaving with each other and with the transactions of workers that boot, and with any
      failures of other workers, the file agrees with the claim of every worker that wrote and whose
      turns were all answered without a fault. */
  lemma AuditAgrees<L(!new)>(e: Engine<H.Stmt, L, File>, turns: Turns, jobs: seq<B.Job<H.Stmt>>, worker: nat)
    requires HammerEngine(e) && I.FreshOpens({}, jobs) && forall i | 0 <= i < |jobs| :: JobFits(turns, jobs[i])
    requires A.Interleaves(Asked(turns, jobs)) && AnswerFirst(e, turns, [], B.Start(H.EMPTY), jobs)
    requires Courteous(e, turns, B.Start(H.EMPTY), jobs)
    requires AllAnswered(turns, Asked(turns, jobs), B.RunJobs(e, B.Start(H.EMPTY), jobs).sent, worker)
    requires H.ClaimOf(worker, A.Projection(Asked(turns, jobs), worker)).Writes() > 0
    ensures H.Audited(B.RunJobs(e, B.Start(H.EMPTY), jobs).db,
            H.ClaimOf(worker, A.Projection(Asked(turns, jobs), worker)))
  {
    hide HammerEngine, B.RunJobs, JobFits, Answered, Asked, AnswerFirst, A.Interleaves, A.Projection, H.ClaimOf,
         H.Audited, Courteous;
    AnsweredInOrder(e, turns, jobs);
    TurnsAgree(e, turns, jobs, worker);
  }
}
