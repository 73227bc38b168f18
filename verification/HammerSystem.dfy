/** The load driver over the whole system: client threads, the channel and the worker. */
module HammerSystem {
  import opened Prelude
  import opened Engine
  import opened HammerBroker
  import opened HammerOrder
  import opened HammerReliable
  import opened Discipline
  import B = Broker
  import H = Hammer
  import A = HammerAudit
  import I = BrokerInvariants
  import T = Clients

  type System<L> = T.Sys<H.Stmt, L, File>

  type Actions = seq<T.Action<H.Stmt>>

  /** The turns sent along a run, in the order of their requests. */
  function TurnsSent<L>(e: Engine<H.Stmt, L, File>, turns: Turns, s: System<L>, actions: Actions): seq<H.Op>
    requires T.Run(e, s, actions).Some?
    decreases |actions|
  {
    if actions == [] then []
    else TurnSent(turns, s, actions[0]) + TurnsSent(e, turns, T.Do(e, s, actions[0]), actions[1..])
  }

  function TurnSent<L>(turns: Turns, s: System<L>, a: T.Action<H.Stmt>): seq<H.Op> {
    if a.Receive? then AskedTurn(turns, B.Req(a.id, a.req, s.tickets)) else []
  }

  // ---------- sessions with a job on its way ----------

  /** A session with a job in the channel has no other there, and none in the queue. */
  lemma ChannelSessionsAlone<L>(s: System<L>)
    requires T.SysInv(s) && s.chan != []
    ensures forall i | 0 < i < |s.chan| :: s.chan[i].id != s.chan[0].id
    ensures forall i | 0 <= i < |s.chan| :: !InQueue(s.w.pending, s.chan[i].id)
  {
    T.FrontIsAlone(s);
    T.QueuedIsUnanswered(s);
    forall i | 0 <= i < |s.chan| ensures T.Awaits(s.clients[s.chan[i].id].pc) == Some(s.chan[i].reply) {
      assert T.JobFits(s.chan[i], s.clients, s.w.sessions.Keys);
    }
    forall k | 0 <= k < |s.w.pending|
        ensures T.Awaits(s.clients[s.w.pending[k].id].pc) == Some(s.w.pending[k].reply) {
      assert T.QueuedFits(s.w.pending[k], s.clients);
    }
  }

  /** What one job leaves alone: the failures and the holdership of a session that is neither the job's
      nor queued, and the answered turns of a worker with no turn in the job and the queue. */
  lemma {:induction false} MessagesElsewhere(turns: Turns, sent: seq<B.Sent>, more: seq<B.Sent>, id: B.Session,
                                             worker: nat)
    ensures (forall m | m in more :: m.id != id) ==>
              (TurnFailed(turns, sent + more, id) ==> TurnFailed(turns, sent, id))
    ensures (forall m | m in more && AnsweredTurn(turns, m) != [] :: AnsweredTurn(turns, m)[0].worker != worker)
            ==> A.Projection(Answered(turns, sent + more), worker) == A.Projection(Answered(turns, sent), worker)
    decreases |more|
  {
    hide Answered, A.Projection, FailsTurn, AnsweredTurn;
    if more == [] {
      NoSuffix(sent);
    } else {
      var m := more[0];
      assert m in more && more == [m] + more[1..];
      MessagesElsewhere(turns, sent + [m], more[1..], id, worker);
      Assoc(sent, [m], more[1..]);
      OneElsewhere(turns, sent, m, id, worker);
    }
  }

  lemma OneElsewhere(turns: Turns, sent: seq<B.Sent>, m: B.Sent, id: B.Session, worker: nat)
    ensures m.id != id ==> (TurnFailed(turns, sent + [m], id) ==> TurnFailed(turns, sent, id))
    ensures (AnsweredTurn(turns, m) != [] ==> AnsweredTurn(turns, m)[0].worker != worker)
            ==> A.Projection(Answered(turns, sent + [m]), worker) == A.Projection(Answered(turns, sent), worker)
  {
    AnsweredGrows(turns, sent, m);
    NoSuffix(Answered(turns, sent));
    if AnsweredTurn(turns, m) != [] {
      ProjectionGrows(Answered(turns, sent), AnsweredTurn(turns, m)[0], worker);
      NoSuffix(A.Projection(Answered(turns, sent), worker));
    }
    hide Answered, A.Projection;
    assert forall i | 0 <= i < |sent| :: (sent + [m])[i] == sent[i];
  }

  // ---------- the turns in the channel ----------

  lemma {:induction false} AskedGrows(turns: Turns, jobs: seq<B.Job<H.Stmt>>, job: B.Job<H.Stmt>)
    ensures Asked(turns, jobs + [job]) == Asked(turns, jobs) + AskedTurn(turns, job)
  {
    hide AskedTurn;
    if jobs == [] {
      assert [job][1..] == [] && [] + [job] == [job];
      NoSuffix(AskedTurn(turns, job));
      NoPrefix(AskedTurn(turns, job));
    } else {
      AppendParts(jobs, [job]);
      AskedGrows(turns, jobs[1..], job);
      Assoc(AskedTurn(turns, jobs[0]), Asked(turns, jobs[1..]), AskedTurn(turns, job));
    }
  }

  lemma {:induction false} AskedIsListed(turns: Turns, jobs: seq<B.Job<H.Stmt>>, i: nat)
    requires i < |jobs| && AskedTurn(turns, jobs[i]) != []
    ensures AskedTurn(turns, jobs[i])[0] in Asked(turns, jobs)
  {
    if i > 0 {
      AskedIsListed(turns, jobs[1..], i - 1);
    }
  }

  lemma {:induction false} ProjectionAppends(a: seq<H.Op>, b: seq<H.Op>, worker: nat)
    ensures A.Projection(a + b, worker) == A.Projection(a, worker) + A.Projection(b, worker)
    ensures forall op | op in b && op.worker == worker :: A.Projection(b, worker) != []
    decreases |b|
  {
    if b == [] {
      NoSuffix(a);
      NoSuffix(A.Projection(a, worker));
    } else {
      var front, last := b[..|b| - 1], b[|b| - 1];
      assert b == front + [last];
      ProjectionAppends(a, front, worker);
      Assoc(a, front, [last]);
      hide A.Projection;
      ProjectionGrows(a + front, last, worker);
      ProjectionGrows(front, last, worker);
      Assoc(A.Projection(a, worker), A.Projection(front, worker), if last.worker == worker then [last] else []);
    }
  }

  /** A worker all of whose turns are answered has none in the channel. */
  lemma NoneInChannel(turns: Turns, asked: seq<H.Op>, chan: seq<B.Job<H.Stmt>>, sent: seq<B.Sent>, worker: nat)
    requires WorkerLags(asked, Answered(turns, sent), worker)
    requires AllAnswered(turns, asked + Asked(turns, chan), sent, worker)
    ensures AllAnswered(turns, asked, sent, worker)
    ensures forall i | 0 <= i < |chan| && AskedTurn(turns, chan[i]) != [] ::
              AskedTurn(turns, chan[i])[0].worker != worker
  {
    hide Answered, Asked, AskedTurn, A.Projection;
    ProjectionAppends(asked, Asked(turns, chan), worker);
    assert A.Projection(Asked(turns, chan), worker) == [];
    forall i | 0 <= i < |chan| && AskedTurn(turns, chan[i]) != []
      ensures AskedTurn(turns, chan[i])[0].worker != worker
    {
      AskedIsListed(turns, chan, i);
    }
  }

  // ---------- workers that wait for their answers ----------

  /** Every request is one of the driver's; a turn is sent when all turns its worker sent before were
      answered without a fault; and a session whose turn failed sends no statement outside a turn. */
  ghost predicate Drives<L>(e: Engine<H.Stmt, L, File>, turns: Turns, before: seq<H.Op>, s: System<L>,
                            actions: Actions)
    decreases |actions|
  {
    actions == []
    || (T.Enabled(s, actions[0]) && SendsFit(turns, before, s, actions[0])
        && Drives(e, turns, before + TurnSent(turns, s, actions[0]), T.Do(e, s, actions[0]), actions[1..]))
  }

  ghost predicate SendsFit<L>(turns: Turns, before: seq<H.Op>, s: System<L>, a: T.Action<H.Stmt>) {
    a.Receive? ==> JobOnItsWay(turns, before, s.w.sent, B.Req(a.id, a.req, s.tickets))
  }

  /** What is known of a job when it is sent, and until it is handled, `asked` being all turns before. */
  ghost predicate JobOnItsWay(turns: Turns, asked: seq<H.Op>, sent: seq<B.Sent>, job: B.Job<H.Stmt>) {
    && JobFits(turns, job)
    && (AskedTurn(turns, job) != [] ==> AllAnswered(turns, asked, sent, AskedTurn(turns, job)[0].worker))
    && (job.Req? && Boots(turns, job.req, job.reply) ==> !TurnFailed(turns, sent, job.id))
  }

  ghost predicate WorkersDiffer(turns: Turns, chan: seq<B.Job<H.Stmt>>) {
    forall i, j | 0 <= i < j < |chan| && AskedTurn(turns, chan[i]) != [] && AskedTurn(turns, chan[j]) != [] ::
      AskedTurn(turns, chan[i])[0].worker != AskedTurn(turns, chan[j])[0].worker
  }

  /** `asked` are the turns of the jobs handled. */
  ghost predicate Good<L>(turns: Turns, before: seq<H.Op>, asked: seq<H.Op>, s: System<L>) {
    && T.SysInv(s) && Follows(turns, H.EMPTY, s.w) && Lags(turns, asked, s.w)
    && before == asked + Asked(turns, s.chan)
    && ChannelFits(turns, asked, s.w.sent, s.chan)
  }

  ghost predicate ChannelFits(turns: Turns, asked: seq<H.Op>, sent: seq<B.Sent>, chan: seq<B.Job<H.Stmt>>) {
    && (forall i | 0 <= i < |chan| :: JobOnItsWay(turns, asked, sent, chan[i]))
    && WorkersDiffer(turns, chan)
  }

  lemma SendGood<L>(turns: Turns, before: seq<H.Op>, asked: seq<H.Op>, s: System<L>, s': System<L>,
                    job: B.Job<H.Stmt>)
    requires Good(turns, before, asked, s) && T.SysInv(s') && s'.w == s.w && s'.chan == s.chan + [job]
    requires JobOnItsWay(turns, before, s.w.sent, job)
    ensures Good(turns, before + AskedTurn(turns, job), asked, s')
  {
    hide T.SysInv, Follows, QueueLags, Asked, Answered, AllAnswered, TurnFailed, WorkerLags, Boots,
         HammerBroker.JobFits;
    AskedGrows(turns, s.chan, job);
    Assoc(asked, Asked(turns, s.chan), AskedTurn(turns, job));
    if AskedTurn(turns, job) != [] {
      NoneInChannel(turns, asked, s.chan, s.w.sent, AskedTurn(turns, job)[0].worker);
    }
    hide AskedTurn;
    forall i | 0 <= i < |s'.chan| ensures JobOnItsWay(turns, asked, s'.w.sent, s'.chan[i]) {
      if i < |s.chan| {
        assert JobOnItsWay(turns, asked, s.w.sent, s.chan[i]);
      }
    }
  }

  /** The queued turns are of workers that wait for them. */
  lemma QueuedWorkersWait<L>(turns: Turns, asked: seq<H.Op>, w: B.W<H.Stmt, L, File>, worker: nat, k: nat)
    requires Lags(turns, asked, w) && AllAnswered(turns, asked, w.sent, worker)
    requires k < |w.pending| && turns(w.pending[k].reply).Some?
    ensures turns(w.pending[k].reply).value.worker != worker
  {
    hide WorkerLags, Answered;
    assert HammerOrder.Awaits(asked, Answered(turns, w.sent), turns(w.pending[k].reply).value);
  }

  /** Handling the front job leaves what is known of the others. */
  lemma OthersOnTheirWay<L>(e: Engine<H.Stmt, L, File>, turns: Turns, asked: seq<H.Op>, s: System<L>, i: nat)
    requires T.SysInv(s) && s.chan != [] && Lags(turns, asked, s.w) && ChannelFits(turns, asked, s.w.sent, s.chan)
    requires 0 < i < |s.chan|
    ensures JobOnItsWay(turns, asked + AskedTurn(turns, s.chan[0]), B.Handle(e, s.w, s.chan[0]).sent, s.chan[i])
  {
    hide T.SysInv, B.Handle, Lags, JobOnItsWay, AskedTurn, Orderly, Admissible, I.OpensFresh, InQueue;
    T.FrontIsAdmissible(s);
    ChannelSessionsAlone(s);
    SystemIsDisciplined(s);
    hide I.Inv, Disciplined;
    HandleIsOrderly(e, s.w, s.chan[0]);
    OtherStays(turns, asked, s.w, s.chan[0], B.Handle(e, s.w, s.chan[0]), s.chan[i]);
  }

  lemma OtherStays<L>(turns: Turns, asked: seq<H.Op>, w: B.W<H.Stmt, L, File>, job: B.Job<H.Stmt>,
                      w': B.W<H.Stmt, L, File>, other: B.Job<H.Stmt>)
    requires Orderly(w, job, w') && Lags(turns, asked, w)
    requires JobOnItsWay(turns, asked, w.sent, job) && JobOnItsWay(turns, asked, w.sent, other)
    requires other.id != job.id && !InQueue(w.pending, other.id)
    requires AskedTurn(turns, other) != [] && AskedTurn(turns, job) != [] ==>
               AskedTurn(turns, other)[0].worker != AskedTurn(turns, job)[0].worker
    ensures JobOnItsWay(turns, asked + AskedTurn(turns, job), w'.sent, other)
  {
    hide Lags, Answered, TurnFailed, Boots, RequestFits, A.Projection, Disciplined, InQueue;
    var more := w'.sent[|w.sent|..];
    assert w'.sent == w.sent + more;
    var worker := if AskedTurn(turns, other) != [] then AskedTurn(turns, other)[0].worker else 0;
    MessagesElsewhere(turns, w.sent, more, other.id, worker);
    forall m | m in more
      ensures m.id != other.id
      ensures AskedTurn(turns, other) != [] && AnsweredTurn(turns, m) != [] ==>
                AnsweredTurn(turns, m)[0].worker != worker
    {
      NewMessage(turns, asked, w, job, w', m, other);
    }
    hide Orderly;
    if AskedTurn(turns, job) != [] {
      ProjectionGrows(asked, AskedTurn(turns, job)[0], worker);
      NoSuffix(A.Projection(asked, worker));
    }
    NoSuffix(asked);
  }

  lemma SystemIsDisciplined<L>(s: System<L>)
    requires T.SysInv(s)
    ensures I.Inv(s.w) && Disciplined(s.w)
  {
  }

  /** A new message is for the job's session or a queued one, and answers no turn of a worker that waits
      for nothing. */
  lemma NewMessage<L>(turns: Turns, asked: seq<H.Op>, w: B.W<H.Stmt, L, File>, job: B.Job<H.Stmt>,
                      w': B.W<H.Stmt, L, File>, m: B.Sent, other: B.Job<H.Stmt>)
    requires Orderly(w, job, w') && m in w'.sent[|w.sent|..] && Lags(turns, asked, w)
    requires HammerBroker.JobFits(turns, job)
    requires other.id != job.id && !InQueue(w.pending, other.id)
    requires AskedTurn(turns, other) != [] ==> AllAnswered(turns, asked, w.sent, AskedTurn(turns, other)[0].worker)
    requires AskedTurn(turns, other) != [] && AskedTurn(turns, job) != [] ==>
               AskedTurn(turns, other)[0].worker != AskedTurn(turns, job)[0].worker
    ensures m.id != other.id
    ensures AskedTurn(turns, other) != [] && AnsweredTurn(turns, m) != [] ==>
              AnsweredTurn(turns, m)[0].worker != AskedTurn(turns, other)[0].worker
  {
    hide Lags, AllAnswered, Disciplined;
    var i :| |w.sent| <= i < |w'.sent| && w'.sent[i] == m;
    if !AnswersJob(m, job, w'.holder) {
      var k :| 0 <= k < |w.pending| && Answers(m, w.pending[k], w'.holder);
      if AskedTurn(turns, other) != [] && turns(m.reply).Some? {
        QueuedWorkersWait(turns, asked, w, AskedTurn(turns, other)[0].worker, k);
      }
    }
  }

  lemma WorkHandles<L(!new)>(e: Engine<H.Stmt, L, File>, turns: Turns, asked: seq<H.Op>, s: System<L>)
    requires HammerEngine(e) && T.SysInv(s) && s.chan != [] && Follows(turns, H.EMPTY, s.w) && Lags(turns, asked, s.w)
    requires JobOnItsWay(turns, asked, s.w.sent, s.chan[0])
    ensures var w' := B.Handle(e, s.w, s.chan[0]);
            Follows(turns, H.EMPTY, w') && Lags(turns, asked + AskedTurn(turns, s.chan[0]), w')
  {
    T.FrontIsAdmissible(s);
    SystemIsDisciplined(s);
    hide T.SysInv, HammerEngine, Follows, Lags, B.Handle, TurnFailed, Answered, HammerBroker.JobFits, Admissible, Boots,
         I.Inv, Disciplined, AllAnswered, I.OpensFresh;
    HandleFollows(e, turns, H.EMPTY, s.w, s.chan[0]);
    HandleLags(e, turns, asked, s.w, s.chan[0]);
  }

  lemma WorkChannel<L>(e: Engine<H.Stmt, L, File>, turns: Turns, asked: seq<H.Op>, s: System<L>)
    requires T.SysInv(s) && s.chan != [] && Lags(turns, asked, s.w) && ChannelFits(turns, asked, s.w.sent, s.chan)
    ensures ChannelFits(turns, asked + AskedTurn(turns, s.chan[0]), B.Handle(e, s.w, s.chan[0]).sent, s.chan[1..])
  {
    hide T.SysInv, Lags, B.Handle, JobOnItsWay, AskedTurn;
    var w', asked' := B.Handle(e, s.w, s.chan[0]), asked + AskedTurn(turns, s.chan[0]);
    forall i | 0 <= i < |s.chan[1..]| ensures JobOnItsWay(turns, asked', w'.sent, s.chan[1..][i]) {
      OthersOnTheirWay(e, turns, asked, s, i + 1);
    }
  }

  lemma WorkGood<L(!new)>(e: Engine<H.Stmt, L, File>, turns: Turns, before: seq<H.Op>, asked: seq<H.Op>, s: System<L>)
    requires HammerEngine(e) && Good(turns, before, asked, s) && T.Enabled(s, T.Work)
    ensures Good(turns, before, asked + AskedTurn(turns, s.chan[0]), T.Do(e, s, T.Work))
  {
    T.StepKeeps(e, s, T.Work);
    hide T.SysInv, HammerEngine, Follows, Lags, B.Handle, JobOnItsWay, AskedTurn, WorkersDiffer;
    assert JobOnItsWay(turns, asked, s.w.sent, s.chan[0]);
    WorkHandles(e, turns, asked, s);
    WorkChannel(e, turns, asked, s);
    hide ChannelFits;
    Assoc(asked, AskedTurn(turns, s.chan[0]), Asked(turns, s.chan[1..]));
  }

  lemma StepGood<L(!new)>(e: Engine<H.Stmt, L, File>, turns: Turns, before: seq<H.Op>, asked: seq<H.Op>, s: System<L>,
                          a: T.Action<H.Stmt>) returns (asked': seq<H.Op>)
    requires HammerEngine(e) && Good(turns, before, asked, s) && T.Enabled(s, a) && SendsFit(turns, before, s, a)
    ensures Good(turns, before + TurnSent(turns, s, a), asked', T.Do(e, s, a))
  {
    hide T.SysInv, JobOnItsWay, HammerEngine, Follows, Lags, ChannelFits, SendsFit, T.Do, Asked;
    asked' := asked;
    NoSuffix(before);
    if a.Work? {
      asked' := asked + AskedTurn(turns, s.chan[0]);
      WorkGood(e, turns, before, asked, s);
    } else {
      T.StepKeeps(e, s, a);
      NewJob(e, turns, before, s, a);
      hide TurnSent, AskedTurn;
      var s' := T.Do(e, s, a);
      if s'.chan != s.chan {
        SendGood(turns, before, asked, s, s', s'.chan[|s.chan|]);
      }
    }
  }

  /** The job an action adds to the channel, if any. */
  lemma NewJob<L>(e: Engine<H.Stmt, L, File>, turns: Turns, before: seq<H.Op>, s: System<L>, a: T.Action<H.Stmt>)
    requires T.Enabled(s, a) && !a.Work? && SendsFit(turns, before, s, a)
    ensures var s' := T.Do(e, s, a);
            && s'.w == s.w
            && ((s'.chan == s.chan && TurnSent(turns, s, a) == [])
                || (|s'.chan| == |s.chan| + 1 && s'.chan == s.chan + [s'.chan[|s.chan|]]
                    && JobOnItsWay(turns, before, s.w.sent, s'.chan[|s.chan|])
                    && TurnSent(turns, s, a) == AskedTurn(turns, s'.chan[|s.chan|])))
  {
    hide AllAnswered, TurnFailed, RequestFits;
  }

  lemma {:induction false} RunGood<L(!new)>(e: Engine<H.Stmt, L, File>, turns: Turns, before: seq<H.Op>,
                                            asked: seq<H.Op>, s: System<L>, actions: Actions)
    returns (asked': seq<H.Op>)
    requires HammerEngine(e) && Good(turns, before, asked, s) && Drives(e, turns, before, s, actions)
    ensures T.Run(e, s, actions).Some?
    ensures Good(turns, before + TurnsSent(e, turns, s, actions), asked', T.Run(e, s, actions).value)
    decreases |actions|
  {
    hide HammerEngine, Good, SendsFit, T.Do, T.Enabled, TurnSent;
    asked' := asked;
    if actions == [] {
      NoSuffix(before);
    } else {
      var a, s' := actions[0], T.Do(e, s, actions[0]);
      asked' := StepGood(e, turns, before, asked, s, a);
      asked' := RunGood(e, turns, before + TurnSent(turns, s, a), asked', s', actions[1..]);
      Assoc(before, TurnSent(turns, s, a), TurnsSent(e, turns, s', actions[1..]));
    }
  }

  lemma InitIsGood<L>(turns: Turns)
    ensures Good<L>(turns, [], [], T.Init(H.EMPTY))
  {
  }

  /** The audit theorem for the whole system: for any number of clients that boot, take turns, reconnect
      and fail, in any interleaving of the clients, the channel and the worker, the file agrees with the
      claim of every worker that wrote and all of whose turns were answered without a fault. */
  lemma SystemAudit<L(!new)>(e: Engine<H.Stmt, L, File>, turns: Turns, actions: Actions, worker: nat)
    requires HammerEngine(e) && Drives(e, turns, [], T.Init(H.EMPTY), actions)
    requires T.Run(e, T.Init(H.EMPTY), actions).Some?
    requires var order := TurnsSent(e, turns, T.Init(H.EMPTY), actions);
             && A.Interleaves(order) && H.ClaimOf(worker, A.Projection(order, worker)).Writes() > 0
             && AllAnswered(turns, order, T.Run(e, T.Init(H.EMPTY), actions).value.w.sent, worker)
    ensures H.Audited(T.Run(e, T.Init(H.EMPTY), actions).value.w.db,
            H.ClaimOf(worker, A.Projection(TurnsSent(e, turns, T.Init(H.EMPTY), actions), worker)))
  {
    var s0: System<L> := T.Init(H.EMPTY);
    InitIsGood<L>(turns);
    hide HammerEngine, T.Run, Drives, A.Interleaves, H.Audited, Good, H.ClaimOf, A.Projection, Answered, TurnsSent;
    var asked := RunGood(e, turns, [], [], s0, actions);
    NoPrefix(TurnsSent(e, turns, s0, actions));
    GoodInterleaves(turns, TurnsSent(e, turns, s0, actions), asked, T.Run(e, s0, actions).value);
    A.AuditPasses(Answered(turns, T.Run(e, s0, actions).value.w.sent), worker);
  }

  lemma GoodInterleaves<L>(turns: Turns, before: seq<H.Op>, asked: seq<H.Op>, s: System<L>)
    requires Good(turns, before, asked, s) && A.Interleaves(before)
    ensures A.Interleaves(Answered(turns, s.w.sent)) && s.w.db == H.ApplyAll(H.EMPTY, Answered(turns, s.w.sent))
  {
    FoldOf(turns, s.w);
    hide A.Interleaves, Answered, T.SysInv, Follows, WorkerLags, QueueLags, ChannelFits;
    InterleavesPrefix(asked, Asked(turns, s.chan));
    LaggingInterleaves(asked, Answered(turns, s.w.sent));
  }

  // ---------- workers on an engine that fails only for a reason ----------

  /** Every request is one of the driver's, and a turn is sent while the connection's cached flag says
      autocommit. */
  ghost predicate DrivesPolitely<L>(e: Engine<H.Stmt, L, File>, turns: Turns, s: System<L>, actions: Actions)
    decreases |actions|
  {
    actions == []
    || (T.Enabled(s, actions[0]) && SendsPolitely(turns, s, actions[0])
        && DrivesPolitely(e, turns, T.Do(e, s, actions[0]), actions[1..]))
  }

  ghost predicate SendsPolitely<L>(turns: Turns, s: System<L>, a: T.Action<H.Stmt>) {
    a.Receive? ==>
      && RequestFits(turns, a.req, s.tickets)
      && (TurnSent(turns, s, a) != [] ==> a.id in s.clients && s.clients[a.id].cached)
  }

  ghost predicate WaitsPolitely(turns: Turns, holder: Option<B.Session>, job: B.Job<H.Stmt>) {
    HammerBroker.JobFits(turns, job) && (AskedTurn(turns, job) != [] ==> holder != Some(job.id))
  }

  /** `asked` are the turns of the jobs handled. */
  ghost predicate Fair<L>(turns: Turns, before: seq<H.Op>, asked: seq<H.Op>, s: System<L>) {
    && T.SysInv(s) && Calm(turns, asked, s.w) && before == asked + Asked(turns, s.chan)
    && forall i | 0 <= i < |s.chan| :: WaitsPolitely(turns, s.w.holder, s.chan[i])
  }

  /** Between handled jobs a session with a job on its way keeps its holdership. */
  lemma HoldershipStays<L>(e: Engine<H.Stmt, L, File>, s: System<L>, i: nat)
    requires T.SysInv(s) && 0 < i < |s.chan|
    ensures B.Handle(e, s.w, s.chan[0]).holder == Some(s.chan[i].id) <==> s.w.holder == Some(s.chan[i].id)
  {
    hide T.SysInv, B.Handle, Admissible, I.OpensFresh, InQueue;
    T.FrontIsAdmissible(s);
    ChannelSessionsAlone(s);
    SystemIsDisciplined(s);
    hide I.Inv, Disciplined;
    HandleIsOrderly(e, s.w, s.chan[0]);
  }

  lemma WorkFair<L(!new)>(e: Engine<H.Stmt, L, File>, turns: Turns, before: seq<H.Op>, asked: seq<H.Op>, s: System<L>)
    requires Reliable(e) && Fair(turns, before, asked, s) && T.Enabled(s, T.Work) && A.Interleaves(before)
    ensures Fair(turns, before, asked + AskedTurn(turns, s.chan[0]), T.Do(e, s, T.Work))
  {
    hide T.SysInv, Reliable, Calm, B.Handle, AskedTurn, HammerBroker.JobFits, A.Interleaves, Admissible, I.Inv,
         Disciplined, I.OpensFresh;
    var job, turn := s.chan[0], AskedTurn(turns, s.chan[0]);
    T.StepKeeps(e, s, T.Work);
    T.FrontIsAdmissible(s);
    SystemIsDisciplined(s);
    Assoc(asked, turn, Asked(turns, s.chan[1..]));
    InterleavesPrefix(asked + turn, Asked(turns, s.chan[1..]));
    assert WaitsPolitely(turns, s.w.holder, job);
    HandleCalms(e, turns, asked, s.w, job);
    forall i | 0 <= i < |s.chan[1..]| ensures WaitsPolitely(turns, B.Handle(e, s.w, job).holder, s.chan[1..][i]) {
      assert WaitsPolitely(turns, s.w.holder, s.chan[i + 1]);
      HoldershipStays(e, s, i + 1);
    }
  }

  /** The cached flag of a client that reads its socket tells whether its session holds. */
  lemma CacheTells<L>(turns: Turns, s: System<L>, a: T.Action<H.Stmt>)
    requires T.SysInv(s) && T.Enabled(s, a) && a.Receive?
    ensures s.clients[a.id].cached <==> s.w.holder != Some(a.id)
  {
    assert T.ClientFits(a.id, s.clients[a.id], s.w.sessions.Keys, s.w.holder, s.tickets);
  }

  lemma StepFair<L(!new)>(e: Engine<H.Stmt, L, File>, turns: Turns, before: seq<H.Op>, asked: seq<H.Op>, s: System<L>,
                          a: T.Action<H.Stmt>) returns (asked': seq<H.Op>)
    requires Reliable(e) && Fair(turns, before, asked, s) && T.Enabled(s, a) && SendsPolitely(turns, s, a)
    requires A.Interleaves(before)
    ensures Fair(turns, before + TurnSent(turns, s, a), asked', T.Do(e, s, a))
  {
    hide T.SysInv, Reliable, Calm, A.Interleaves, T.Do, Asked, HammerBroker.JobFits, WaitsPolitely;
    asked' := asked;
    NoSuffix(before);
    if a.Work? {
      asked' := asked + AskedTurn(turns, s.chan[0]);
      WorkFair(e, turns, before, asked, s);
    } else {
      T.StepKeeps(e, s, a);
      NewPoliteJob(e, turns, s, a);
      hide TurnSent, AskedTurn;
      var s' := T.Do(e, s, a);
      if s'.chan != s.chan {
        AskedGrows(turns, s.chan, s'.chan[|s.chan|]);
        Assoc(asked, Asked(turns, s.chan), AskedTurn(turns, s'.chan[|s.chan|]));
      }
    }
  }

  lemma NewPoliteJob<L>(e: Engine<H.Stmt, L, File>, turns: Turns, s: System<L>, a: T.Action<H.Stmt>)
    requires T.SysInv(s) && T.Enabled(s, a) && !a.Work? && SendsPolitely(turns, s, a)
    ensures var s' := T.Do(e, s, a);
            && s'.w == s.w
            && ((s'.chan == s.chan && TurnSent(turns, s, a) == [])
                || (|s'.chan| == |s.chan| + 1 && s'.chan == s.chan + [s'.chan[|s.chan|]]
                    && WaitsPolitely(turns, s.w.holder, s'.chan[|s.chan|])
                    && TurnSent(turns, s, a) == AskedTurn(turns, s'.chan[|s.chan|])))
  {
    hide T.SysInv, RequestFits;
    if a.Receive? {
      CacheTells(turns, s, a);
    }
  }

  lemma {:induction false} RunFair<L(!new)>(e: Engine<H.Stmt, L, File>, turns: Turns, before: seq<H.Op>,
                                            asked: seq<H.Op>, s: System<L>, actions: Actions)
    returns (asked': seq<H.Op>)
    requires Reliable(e) && Fair(turns, before, asked, s) && DrivesPolitely(e, turns, s, actions)
    requires T.Run(e, s, actions).Some? && A.Interleaves(before + TurnsSent(e, turns, s, actions))
    ensures Fair(turns, before + TurnsSent(e, turns, s, actions), asked', T.Run(e, s, actions).value)
    decreases |actions|
  {
    hide Reliable, Fair, SendsPolitely, T.Do, T.Enabled, TurnSent, A.Interleaves;
    asked' := asked;
    if actions == [] {
      NoSuffix(before);
    } else {
      var a, s' := actions[0], T.Do(e, s, actions[0]);
      InterleavesPrefix(before, TurnsSent(e, turns, s, actions));
      asked' := StepFair(e, turns, before, asked, s, a);
      Assoc(before, TurnSent(turns, s, a), TurnsSent(e, turns, s', actions[1..]));
      asked' := RunFair(e, turns, before + TurnSent(turns, s, a), asked', s', actions[1..]);
    }
  }

  lemma InitIsFair<L>(turns: Turns)
    ensures Fair<L>(turns, [], [], T.Init(H.EMPTY))
  {
  }

  /** The storm in the whole system: with any number of clients that boot and take turns, in any
      interleaving with the channel and the worker, no turn ever fails, whoever is queued waits for a
      session in a transaction of its boot, and the turns sent are those answered, those queued and
      those in the channel, in this order. */
  lemma SystemStorm<L(!new)>(e: Engine<H.Stmt, L, File>, turns: Turns, actions: Actions) returns (asked: seq<H.Op>)
    requires Reliable(e) && DrivesPolitely(e, turns, T.Init(H.EMPTY), actions)
    requires T.Run(e, T.Init(H.EMPTY), actions).Some?
    requires A.Interleaves(TurnsSent(e, turns, T.Init(H.EMPTY), actions))
    ensures var s := T.Run(e, T.Init(H.EMPTY), actions).value;
            && Weathered(turns, asked, s.w)
            && asked + Asked(turns, s.chan) == TurnsSent(e, turns, T.Init(H.EMPTY), actions)
  {
    var s0: System<L> := T.Init(H.EMPTY);
    var order := TurnsSent(e, turns, s0, actions);
    InitIsFair<L>(turns);
    NoPrefix(order);
    hide Reliable, T.Run, DrivesPolitely, A.Interleaves, Calm, Weathered, T.SysInv, TurnsSent, Asked, WaitsPolitely;
    asked := RunFair(e, turns, [], [], s0, actions);
    var s := T.Run(e, s0, actions).value;
    InterleavesPrefix(asked, Asked(turns, s.chan));
    SystemIsDisciplined(s);
    CalmIsWeathered(turns, asked, s.w);
  }
}
