/** The broker's theorems for the composed system of client threads, channel and worker. */
module Composed {
  import opened Prelude
  import opened Engine
  import opened Broker
  import opened BrokerInvariants
  import opened Blocks
  import opened Fairness
  import opened Clients

  // ---------- what the worker has handled ----------

  /** `jobs` are those the worker has handled: with those in the channel they are numbered in the
      order they were sent, and open each session number once. */
  ghost predicate History<C, L, D>(e: Engine<C, L, D>, d0: D, s: Sys<C, L, D>, jobs: seq<Job<C>>) {
    && s.w == RunJobs(e, Start(d0), jobs)
    && Numbered(jobs + s.chan, 0) && |jobs + s.chan| == s.tickets
    && FreshOpens({}, jobs + s.chan)
    && forall i | 0 <= i < |jobs + s.chan| && (jobs + s.chan)[i].Open? :: (jobs + s.chan)[i].id < s.sessions
  }

  lemma {:induction false} OneMoreJob<C, L, D>(e: Engine<C, L, D>, w: W<C, L, D>, jobs: seq<Job<C>>, job: Job<C>)
    ensures RunJobs(e, w, jobs + [job]) == Handle(e, RunJobs(e, w, jobs), job)
    decreases |jobs|
  {
    hide Handle;
    if jobs == [] {
      NoPrefix([job]);
      assert [job][1..] == [];
    } else {
      AppendParts(jobs, [job]);
      OneMoreJob(e, Handle(e, w, jobs[0]), jobs[1..], job);
    }
  }

  lemma SubmitHistory<C, L, D>(e: Engine<C, L, D>, d0: D, s: Sys<C, L, D>, jobs: seq<Job<C>>, id: Session, c: Client,
                               job: Job<C>)
    requires History(e, d0, s, jobs) && job.reply == s.tickets && !job.Open?
    ensures History(e, d0, Submit(s, id, c, job), jobs)
  {
    hide RunJobs;
    Assoc(jobs, s.chan, [job]);
  }

  lemma AcceptHistory<C, L, D>(e: Engine<C, L, D>, d0: D, s: Sys<C, L, D>, jobs: seq<Job<C>>, c: Client, opens: bool)
    requires History(e, d0, s, jobs)
    ensures History(e, d0, Submit(s.(sessions := s.sessions + 1), s.sessions, c, Open(s.sessions, s.tickets, opens)),
            jobs)
  {
    hide RunJobs;
    Assoc(jobs, s.chan, [Open(s.sessions, s.tickets, opens)]);
  }

  lemma WorkHistory<C, L, D>(e: Engine<C, L, D>, d0: D, s: Sys<C, L, D>, jobs: seq<Job<C>>)
    requires History(e, d0, s, jobs) && s.chan != []
    ensures History(e, d0, s.(w := Handle(e, s.w, s.chan[0]), chan := s.chan[1..]), jobs + [s.chan[0]])
  {
    OneMoreJob(e, Start(d0), jobs, s.chan[0]);
    hide RunJobs, Handle;
    Assoc(jobs, [s.chan[0]], s.chan[1..]);
    assert [s.chan[0]] + s.chan[1..] == s.chan;
  }

  lemma StepHistory<C, L, D>(e: Engine<C, L, D>, d0: D, s: Sys<C, L, D>, jobs: seq<Job<C>>, a: Action<C>)
    returns (jobs': seq<Job<C>>)
    requires History(e, d0, s, jobs) && Enabled(s, a)
    ensures History(e, d0, Do(e, s, a), jobs')
  {
    jobs' := if a.Work? then jobs + [s.chan[0]] else jobs;
    match a {
      case Accept(opens) => AcceptHistory(e, d0, s, jobs, Client(Opening(s.tickets), true, false, 0), opens);
      case Work => WorkHistory(e, d0, s, jobs);
      case Receive(id, req) =>
        SubmitHistory(e, d0, s, jobs, id, Do(e, s, a).clients[id], Req(id, req, s.tickets));
      case Disconnect(id) => SubmitHistory(e, d0, s, jobs, id, Do(e, s, a).clients[id], Drop(id, s.tickets));
      case Greet(id, ok) =>
        if !ok {
          SubmitHistory(e, d0, s, jobs, id, Do(e, s, a).clients[id], Drop(id, s.tickets));
        }
      case Write(id, ok) =>
        if !ok && !s.clients[id].pc.closing {
          SubmitHistory(e, d0, s, jobs, id, Do(e, s, a).clients[id], Drop(id, s.tickets));
        }
      case Hear(_, _) =>
    }
    hide Handle, Heard, RunJobs, FreshOpens, Numbered;
  }

  lemma {:induction false} RunHistory<C, L, D>(e: Engine<C, L, D>, d0: D, s: Sys<C, L, D>, jobs: seq<Job<C>>,
                                               actions: seq<Action<C>>)
    returns (jobs': seq<Job<C>>)
    requires History(e, d0, s, jobs) && Run(e, s, actions).Some?
    ensures History(e, d0, Run(e, s, actions).value, jobs')
    decreases |actions|
  {
    hide History, Do, Enabled;
    if actions == [] {
      jobs' := jobs;
    } else {
      jobs' := StepHistory(e, d0, s, jobs, actions[0]);
      jobs' := RunHistory(e, d0, Do(e, s, actions[0]), jobs', actions[1..]);
    }
  }

  /** In every reachable state the worker is where a list of jobs takes it that opens each session
      once and is numbered in the order of arrival. */
  lemma SystemRunsJobs<C(!new), L, D>(e: Engine<C, L, D>, d0: D, s: Sys<C, L, D>) returns (jobs: seq<Job<C>>)
    requires Reachable(e, d0, s)
    ensures s.w == RunJobs(e, Start(d0), jobs) && FreshOpens({}, jobs) && Numbered(jobs, 0)
  {
    var actions: seq<Action<C>> :| Run(e, Init(d0), actions) == Some(s);
    var s0: Sys<C, L, D> := Init(d0);
    assert History(e, d0, s0, []);
    hide Run, RunJobs;
    jobs := RunHistory(e, d0, s0, [], actions);
    var all := jobs + s.chan;
    forall i | 0 <= i < |jobs| ensures jobs[i] == all[i] {
    }
  }

  // ---------- isolation and order ----------

  /** In every reachable state the file is the fold of the autocommit statements and the committed
      transactions in the order of the log, and the holder's working copy adds its own. */
  lemma SystemIsSerialisable<C(!new), L, D>(e: Engine<C, L, D>, d0: D, s: Sys<C, L, D>)
    requires Reachable(e, d0, s)
    ensures var sorted := Sort(s.w.log);
            && s.w.db == Effect(e, d0, sorted.done)
            && (s.w.holder.None? ==> sorted.running == [])
            && (s.w.holder.Some? ==>
                && s.w.holder.value in s.w.sessions
                && s.w.sessions[s.w.holder.value].tx == Some(Effect(e, s.w.db, sorted.running))
                && forall i | 0 <= i < |sorted.running| :: sorted.running[i].id == s.w.holder.value)
  {
    hide Reachable, RunJobs, Sort, Effect;
    var jobs := SystemRunsJobs(e, d0, s);
    Serialisable(e, d0, jobs);
  }

  /** In every reachable state: between a statement that leaves its session inside a transaction and
      the end of that transaction, no Exec, Prepare or statement of another session happened. */
  lemma SystemIsolates<C(!new), L, D>(e: Engine<C, L, D>, d0: D, s: Sys<C, L, D>, i: nat, j: nat)
    requires Reachable(e, d0, s) && i < j < |s.w.log|
    requires s.w.log[i].Stepped? && LeavesOpen(s.w.log[i], s.w.log[i].id)
    requires (s.w.log[j].Stepped? || s.w.log[j].Inspected?) && s.w.log[j].id != s.w.log[i].id
    ensures exists k | i < k < j :: EndsTransaction(s.w.log[k], s.w.log[i].id)
  {
    hide Reachable, RunJobs;
    var jobs := SystemRunsJobs(e, d0, s);
    NothingLandsInside(e, d0, jobs, i, j);
  }

  /** In every reachable state a request has been overtaken only by a session that held the
      transaction when its own later request arrived, and the queue is in arrival order. */
  lemma SystemKeepsOrder<C(!new), L, D>(e: Engine<C, L, D>, d0: D, s: Sys<C, L, D>)
    requires Reachable(e, d0, s)
    ensures forall i, j | 0 <= i < j < |s.w.served| :: s.w.served[i].reply > s.w.served[j].reply ==> s.w.served[i].held
    ensures forall i, j | 0 <= i < j < |s.w.pending| :: s.w.pending[i].reply < s.w.pending[j].reply
  {
    hide Reachable, RunJobs;
    var jobs := SystemRunsJobs(e, d0, s);
    ArrivalOrder(e, d0, jobs);
  }

  // ---------- bounded waiting, without conditions ----------

  /** How many transactions end along a run of the system. */
  function Endings<C, L, D>(e: Engine<C, L, D>, s: Sys<C, L, D>, actions: seq<Action<C>>): nat
    requires Run(e, s, actions).Some?
    decreases |actions|
  {
    if actions == [] then 0
    else
      (if actions[0].Work? && Releases(e, s.w, s.chan[0]) then 1 else 0)
      + Endings(e, Do(e, s, actions[0]), actions[1..])
  }

  /** A queued session's client is blocked, so no job of it is on its way: its place in the queue
      only gets better, and its own teardown cannot come first. */
  lemma WorkAdvances<C, L, D>(e: Engine<C, L, D>, s: Sys<C, L, D>, p: Pending<C>, n: int)
    requires SysInv(s) && s.chan != [] && WaitsBehind(s.w, p, n)
    ensures var w' := Handle(e, s.w, s.chan[0]);
            WasServed(w', p) || WaitsBehind(w', p, if Releases(e, s.w, s.chan[0]) then n - 1 else n)
  {
    FrontIsAdmissible(s);
    hide SysInv, Handle, Releases;
    assert Inv(s.w) by { InvOf(s); }
    hide Inv;
    HandleAdvances(e, s.w, s.chan[0], p, n);
  }

  lemma InvOf<C, L, D>(s: Sys<C, L, D>)
    requires SysInv(s)
    ensures Inv(s.w)
  {
  }

  lemma ServedRemains<C, L, D>(e: Engine<C, L, D>, s: Sys<C, L, D>, p: Pending<C>, a: Action<C>)
    requires SysInv(s) && Enabled(s, a) && WasServed(s.w, p)
    ensures WasServed(Do(e, s, a).w, p)
  {
    if a.Work? {
      FrontIsAdmissible(s);
      InvOf(s);
      hide SysInv, Handle, Inv;
      ServedGrows(e, s.w, s.chan[0]);
    }
  }

  /** From every reachable state on, whatever happens: a queued request with `n` before it has been
      served once `n + 1` transactions have ended. */
  lemma {:induction false} SystemServes<C, L, D>(e: Engine<C, L, D>, s: Sys<C, L, D>, actions: seq<Action<C>>,
                                                 p: Pending<C>, n: int)
    requires SysInv(s) && Run(e, s, actions).Some? && (WasServed(s.w, p) || WaitsBehind(s.w, p, n))
    ensures var w' := Run(e, s, actions).value.w;
            WasServed(w', p) || WaitsBehind(w', p, n - Endings(e, s, actions))
    ensures Endings(e, s, actions) > n ==> WasServed(Run(e, s, actions).value.w, p)
    decreases |actions|
  {
    if actions != [] {
      var a, s' := actions[0], Do(e, s, actions[0]);
      StepKeeps(e, s, a);
      if WasServed(s.w, p) {
        ServedRemains(e, s, p, a);
      } else if a.Work? {
        WorkAdvances(e, s, p, n);
      } else {
        assert s'.w == s.w;
      }
      hide SysInv, Do, Enabled, Releases, WaitsBehind, WasServed;
      SystemServes(e, s', actions[1..], p, if a.Work? && Releases(e, s.w, s.chan[0]) then n - 1 else n);
      PlacesMove(Run(e, s, actions).value.w, p);
    } else {
      PlacesMove(s.w, p);
    }
  }

  lemma PlacesMove<C, L, D>(w: W<C, L, D>, p: Pending<C>)
    ensures forall m, n: int | m <= n :: WaitsBehind(w, p, m) ==> WaitsBehind(w, p, n)
    ensures forall n: int | n < 0 :: !WaitsBehind(w, p, n)
  {
  }

  // ---------- the greeting ----------

  /** The client thread has written its hello. */
  predicate PastHello(pc: PC) {
    pc.Reading? || pc.Waiting? || pc.Answering?
  }

  ghost predicate HelloWritten<C, L, D>(s: Sys<C, L, D>, done: seq<Action<C>>) {
    forall id | id in s.clients && PastHello(s.clients[id].pc) :: Greet(id, true) in done
  }

  lemma StepHello<C, L, D>(e: Engine<C, L, D>, s: Sys<C, L, D>, done: seq<Action<C>>, a: Action<C>)
    requires HelloWritten(s, done) && Enabled(s, a)
    ensures HelloWritten(Do(e, s, a), done + [a])
  {
    hide Handle;
  }

  lemma {:induction false} HelloAlong<C, L, D>(e: Engine<C, L, D>, s: Sys<C, L, D>, done: seq<Action<C>>,
                                               actions: seq<Action<C>>, j: nat)
    requires HelloWritten(s, done) && Run(e, s, actions).Some? && j < |actions|
    requires actions[j].Receive? || actions[j].Disconnect? || actions[j].Write?
    ensures Greet(actions[j].id, true) in done + actions[..j]
    decreases j
  {
    hide Do;
    if j == 0 {
      assert Greet(actions[0].id, true) in done;
      assert actions[..0] == [];
      NoSuffix(done);
    } else {
      StepHello(e, s, done, actions[0]);
      hide HelloWritten;
      HelloAlong(e, Do(e, s, actions[0]), done + [actions[0]], actions[1..], j - 1);
      assert actions[..j] == [actions[0]] + actions[1..][..j - 1];
      Assoc(done, [actions[0]], actions[1..][..j - 1]);
    }
  }

  /** No request is read from a client, and no answer written to it, before its hello was written. */
  lemma HelloFirst<C, L, D>(e: Engine<C, L, D>, d0: D, actions: seq<Action<C>>, j: nat)
    requires Run(e, Init(d0), actions).Some? && j < |actions|
    requires actions[j].Receive? || actions[j].Disconnect? || actions[j].Write?
    ensures exists i | 0 <= i < j :: actions[i] == Greet(actions[j].id, true)
  {
    HelloAlong(e, Init(d0), [], actions, j);
    var i :| 0 <= i < j && actions[..j][i] == Greet(actions[j].id, true);
    assert actions[i] == actions[..j][i];
  }
}
