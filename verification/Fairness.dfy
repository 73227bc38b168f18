/** Order of service: the queue is served from the front, in arrival order, and waiting is bounded. */
module Fairness {
  import opened Prelude
  import opened Engine
  import opened Script
  import opened Broker
  import opened BrokerInvariants

  // ---------- one run over the queue ----------

  function ServedFromQueue<C>(ps: seq<Pending<C>>): (r: seq<Served>)
    ensures |r| == |ps| && forall i | 0 <= i < |ps| :: r[i] == Served(ps[i].reply, ps[i].id, false)
  {
    if ps == [] then [] else [Served(ps[0].reply, ps[0].id, false)] + ServedFromQueue(ps[1..])
  }

  /** Pumping serves exactly the first `n` entries, in order, and leaves the others as they were. It
      stops only with an empty queue, or because the last entry served now holds a transaction. */
  lemma {:induction false} PumpServesPrefix<C, L, D>(e: Engine<C, L, D>, w: W<C, L, D>) returns (n: nat)
    requires Core(w)
    ensures var w' := Pump(e, w);
            && n <= |w.pending| && w'.pending == w.pending[n..]
            && w'.served == w.served + ServedFromQueue(w.pending[..n])
            && (w.holder.Some? ==> n == 0 && w'.holder == w.holder)
            && (w.holder.None? ==>
                if w'.holder.Some? then n > 0 && w'.holder == Some(w.pending[n - 1].id) else n == |w.pending|)
    decreases |w.pending|
  {
    hide Dispatch, ServedFromQueue;
    n := 0;
    NoSuffix(w.served);
    if w.holder.None? && w.pending != [] {
      var p, rest := w.pending[0], w.(pending := w.pending[1..]);
      DispatchKeepsCore(e, rest, p, false);
      DispatchServesOne(e, rest, p, false);
      var m := PumpServesPrefix(e, Dispatch(e, rest, p, false));
      n := m + 1;
      assert w.pending[..n] == [p] + rest.pending[..m];
      ServedAppend(p, rest.pending[..m]);
      Assoc(w.served, [Served(p.reply, p.id, false)], ServedFromQueue(rest.pending[..m]));
    }
  }

  lemma ServedAppend<C>(p: Pending<C>, ps: seq<Pending<C>>)
    ensures ServedFromQueue([p] + ps) == [Served(p.reply, p.id, false)] + ServedFromQueue(ps)
  {
    assert ([p] + ps)[1..] == ps;
  }

  lemma DispatchServesOne<C, L, D>(e: Engine<C, L, D>, w: W<C, L, D>, p: Pending<C>, held: bool)
    requires !p.req.Close?
    ensures Dispatch(e, w, p, held).served == w.served + [Served(p.reply, p.id, held)]
  {
  }

  // ---------- arrival order ----------

  /** Reply channels are numbered in the order of arrival, from `n` on. */
  ghost predicate Numbered<C>(jobs: seq<Job<C>>, n: nat) {
    forall i | 0 <= i < |jobs| :: jobs[i].reply == n + i
  }

  /** All earlier arrivals are below `n`; the queue is in arrival order; whoever was served before
      an earlier arrival held the transaction when it arrived itself. */
  ghost predicate InOrder<C>(served: seq<Served>, pending: seq<Pending<C>>, n: nat) {
    && (forall i | 0 <= i < |pending| :: pending[i].reply < n)
    && (forall i | 0 <= i < |served| :: served[i].reply < n)
    && (forall i, j | 0 <= i < j < |pending| :: pending[i].reply < pending[j].reply)
    && (forall i, j | 0 <= i < |served| && 0 <= j < |pending| :: served[i].reply > pending[j].reply ==> served[i].held)
    && (forall i, j | 0 <= i < j < |served| :: served[i].reply > served[j].reply ==> served[i].held)
  }

  ghost predicate Increasing<C>(pending: seq<Pending<C>>) {
    forall i, j | 0 <= i < j < |pending| :: pending[i].reply < pending[j].reply
  }

  lemma {:induction false} WithoutIncreases<C>(pending: seq<Pending<C>>, id: Session)
    requires Increasing(pending)
    ensures Increasing(Without(pending, id))
  {
    if pending != [] {
      var p, rest, kept := pending[0], pending[1..], Without(pending[1..], id);
      assert Increasing(rest);
      WithoutIncreases(rest, id);
      WithoutKeeps(rest, id);
      NoPrefix(kept);
      assert pending == [p] + rest;
      hide Increasing;
      if p.id != id {
        FrontIncreases(p, rest, kept);
      }
    }
  }

  lemma FrontIncreases<C>(p: Pending<C>, rest: seq<Pending<C>>, kept: seq<Pending<C>>)
    requires Increasing([p] + rest) && Increasing(kept) && forall q | q in kept :: q in rest
    ensures Increasing([p] + kept)
  {
    forall j | 0 <= j < |kept| ensures p.reply < kept[j].reply {
      assert kept[j] in rest;
      var k :| 0 <= k < |rest| && rest[k] == kept[j];
      assert ([p] + rest)[0] == p && ([p] + rest)[k + 1] == kept[j];
    }
  }

  lemma WithoutKeepsOrder<C>(served: seq<Served>, pending: seq<Pending<C>>, n: nat, id: Session)
    requires InOrder(served, pending, n)
    ensures InOrder(served, Without(pending, id), n)
  {
    hide Without;
    WithoutIncreases(pending, id);
    WithoutKeeps(pending, id);
    var kept := Without(pending, id);
    forall j | 0 <= j < |kept| ensures exists k :: 0 <= k < |pending| && pending[k] == kept[j] {
      assert kept[j] in pending;
    }
  }

  /** Serving a prefix of the queue from the queue keeps the order. */
  lemma PrefixKeepsOrder<C>(served: seq<Served>, pending: seq<Pending<C>>, n: nat, k: nat)
    requires InOrder(served, pending, n) && k <= |pending|
    ensures InOrder(served + ServedFromQueue(pending[..k]), pending[k..], n)
  {
    hide ServedFromQueue;
    var more := ServedFromQueue(pending[..k]);
    var served' := served + more;
    forall i | |served| <= i < |served'| ensures served'[i].reply == pending[i - |served|].reply {
      assert served'[i] == more[i - |served|];
    }
  }

  lemma PumpKeepsOrder<C, L, D>(e: Engine<C, L, D>, w: W<C, L, D>, n: nat)
    requires Core(w) && InOrder(w.served, w.pending, n)
    ensures InOrder(Pump(e, w).served, Pump(e, w).pending, n)
  {
    var k := PumpServesPrefix(e, w);
    PrefixKeepsOrder(w.served, w.pending, n, k);
  }

  /** Serving the newest arrival at once keeps the order if nobody waits or its session holds. */
  lemma ServedAtOnce<C>(served: seq<Served>, pending: seq<Pending<C>>, s: Served)
    requires InOrder(served, pending, s.reply) && (pending != [] ==> s.held)
    ensures InOrder(served + [s], pending, s.reply + 1)
  {
  }

  lemma ActKeepsOrder<C, L, D>(e: Engine<C, L, D>, w: W<C, L, D>, job: Job<C>)
    requires Inv(w) && OpensFresh(w, job) && !Waits(w, job) && InOrder(w.served, w.pending, job.reply)
    ensures InOrder(Act(e, w, job).served, Act(e, w, job).pending, job.reply + 1)
  {
    hide InOrder, Core;
    if job.Req? && !job.req.Close? {
      var p, held := Pending(job.id, job.req, job.reply), w.holder == Some(job.id);
      DispatchKeepsCore(e, w, p, held);
      DispatchServesOne(e, w, p, held);
      hide Dispatch;
      ServedAtOnce(w.served, w.pending, Served(job.reply, job.id, held));
    } else {
      hide Without;
      WithoutKeepsOrder(w.served, w.pending, job.reply, job.id);
      LaterArrival(w.served, w.pending, job.reply);
      LaterArrival(w.served, Without(w.pending, job.id), job.reply);
    }
  }

  lemma LaterArrival<C>(served: seq<Served>, pending: seq<Pending<C>>, n: nat)
    ensures InOrder(served, pending, n) ==> InOrder(served, pending, n + 1)
  {
  }

  lemma HandleKeepsOrder<C, L, D>(e: Engine<C, L, D>, w: W<C, L, D>, job: Job<C>)
    requires Inv(w) && OpensFresh(w, job) && InOrder(w.served, w.pending, job.reply)
    ensures InOrder(Handle(e, w, job).served, Handle(e, w, job).pending, job.reply + 1)
  {
    hide InOrder, Pump, Act, Core;
    if Waits(w, job) {
      EnqueueKeepsOrder(w, job);
    } else {
      ActKeepsOrder(e, w, job);
      ActKeepsCore(e, w, job);
      PumpKeepsOrder(e, Act(e, w, job), job.reply + 1);
    }
  }

  lemma EnqueueKeepsOrder<C, L, D>(w: W<C, L, D>, job: Job<C>)
    requires job.Req? && InOrder(w.served, w.pending, job.reply)
    ensures InOrder(Enqueue(w, job).served, Enqueue(w, job).pending, job.reply + 1)
  {
  }

  lemma {:induction false} JobsKeepOrder<C, L, D>(e: Engine<C, L, D>, w: W<C, L, D>, jobs: seq<Job<C>>, n: nat)
    requires Inv(w) && FreshOpens(w.sessions.Keys, jobs) && Numbered(jobs, n) && InOrder(w.served, w.pending, n)
    ensures var w' := RunJobs(e, w, jobs); InOrder(w'.served, w'.pending, n + |jobs|)
    decreases |jobs|
  {
    hide Handle;
    if jobs != [] {
      HandleKeepsInv(e, w, jobs[0]);
      HandleKeepsOrder(e, w, jobs[0]);
      var w' := Handle(e, w, jobs[0]);
      FreshOpensRest(w.sessions.Keys, w'.sessions.Keys, jobs);
      JobsKeepOrder(e, w', jobs[1..], n + 1);
    }
  }

  /** In every run a request is overtaken only by a session that held the transaction when its own
      later request arrived; the queue itself stays in arrival order. */
  lemma ArrivalOrder<C, L, D>(e: Engine<C, L, D>, d0: D, jobs: seq<Job<C>>)
    requires FreshOpens({}, jobs) && Numbered(jobs, 0)
    ensures var w := RunJobs(e, Start(d0), jobs);
            && (forall i, j | 0 <= i < j < |w.served| :: w.served[i].reply > w.served[j].reply ==> w.served[i].held)
            && (forall i, j | 0 <= i < j < |w.pending| :: w.pending[i].reply < w.pending[j].reply)
  {
    JobsKeepOrder(e, Start(d0), jobs, 0);
  }

  // ---------- bounded waiting ----------

  /** This job ends the holder's transaction. */
  predicate Releases<C, L, D>(e: Engine<C, L, D>, w: W<C, L, D>, job: Job<C>) {
    w.holder.Some? && !Waits(w, job) && Act(e, w, job).holder.None?
  }

  function CountReleases<C, L, D>(e: Engine<C, L, D>, w: W<C, L, D>, jobs: seq<Job<C>>): nat
    decreases |jobs|
  {
    if jobs == [] then 0
    else (if Releases(e, w, jobs[0]) then 1 else 0) + CountReleases(e, Handle(e, w, jobs[0]), jobs[1..])
  }

  predicate TearsDown<C>(job: Job<C>, id: Session) {
    job.id == id && (job.Drop? || (job.Req? && job.req.Close?))
  }

  /** `p` waits with at most `n` entries before it. */
  ghost predicate WaitsBehind<C, L, D>(w: W<C, L, D>, p: Pending<C>, n: int) {
    exists i | 0 <= i < |w.pending| :: i <= n && w.pending[i] == p
  }

  ghost predicate WasServed<C, L, D>(w: W<C, L, D>, p: Pending<C>) {
    Served(p.reply, p.id, false) in w.served
  }

  lemma {:induction false} WithoutMovesForward<C>(pending: seq<Pending<C>>, id: Session, i: nat) returns (j: nat)
    requires i < |pending| && pending[i].id != id
    ensures j <= i && j < |Without(pending, id)| && Without(pending, id)[j] == pending[i]
  {
    if i == 0 {
      j := 0;
    } else {
      var k := WithoutMovesForward(pending[1..], id, i - 1);
      j := if pending[0].id == id then k else k + 1;
    }
  }

  lemma ActKeepsWaiting<C, L, D>(e: Engine<C, L, D>, w: W<C, L, D>, job: Job<C>, p: Pending<C>, n: int)
    requires Inv(w) && !Waits(w, job) && WaitsBehind(w, p, n) && !TearsDown(job, p.id)
    ensures WaitsBehind(Act(e, w, job), p, n)
    ensures w.served <= Act(e, w, job).served
  {
    var i :| 0 <= i < |w.pending| && i <= n && w.pending[i] == p;
    if job.Drop? || (job.Req? && job.req.Close?) {
      var j := WithoutMovesForward(w.pending, job.id, i);
      assert Act(e, w, job).pending[j] == p;
    } else {
      assert Act(e, w, job).pending == w.pending;
    }
  }

  lemma PumpAdvances<C, L, D>(e: Engine<C, L, D>, w: W<C, L, D>, p: Pending<C>, n: int)
    requires Core(w) && WaitsBehind(w, p, n)
    ensures var w' := Pump(e, w);
            WasServed(w', p) || WaitsBehind(w', p, if w.holder.None? then n - 1 else n)
    ensures w.served <= Pump(e, w).served
  {
    hide Pump, Core, ServedFromQueue;
    var k := PumpServesPrefix(e, w);
    var i :| 0 <= i < |w.pending| && i <= n && w.pending[i] == p;
    var w' := Pump(e, w);
    if i < k {
      ServedIsListed(w.served, w.pending[..k], i);
    } else {
      assert w'.pending[i - k] == p;
    }
  }

  lemma ServedIsListed<C>(served: seq<Served>, ps: seq<Pending<C>>, i: nat)
    requires i < |ps|
    ensures Served(ps[i].reply, ps[i].id, false) in served + ServedFromQueue(ps)
  {
    var more := ServedFromQueue(ps);
    assert more[i] in more;
    hide ServedFromQueue;
  }

  /** Each job that ends a transaction moves a waiting entry at least one place forward, and no
      other job moves it back. */
  lemma HandleAdvances<C, L, D>(e: Engine<C, L, D>, w: W<C, L, D>, job: Job<C>, p: Pending<C>, n: int)
    requires Inv(w) && OpensFresh(w, job) && WaitsBehind(w, p, n) && !TearsDown(job, p.id)
    ensures var w' := Handle(e, w, job);
            WasServed(w', p) || WaitsBehind(w', p, if Releases(e, w, job) then n - 1 else n)
    ensures w.served <= Handle(e, w, job).served
  {
    if Waits(w, job) {
      var i :| 0 <= i < |w.pending| && i <= n && w.pending[i] == p;
      assert Handle(e, w, job).pending[i] == p;
    } else {
      ActKeepsWaiting(e, w, job, p, n);
      ActKeepsCore(e, w, job);
      PumpAdvances(e, Act(e, w, job), p, n);
    }
  }

  lemma ServedGrows<C, L, D>(e: Engine<C, L, D>, w: W<C, L, D>, job: Job<C>)
    requires Inv(w) && OpensFresh(w, job)
    ensures w.served <= Handle(e, w, job).served
  {
    hide Act, Pump, Core, ServedFromQueue;
    if !Waits(w, job) {
      ActKeepsCore(e, w, job);
      ActServes(e, w, job);
      var _ := PumpServesPrefix(e, Act(e, w, job));
    }
  }

  lemma ActServes<C, L, D>(e: Engine<C, L, D>, w: W<C, L, D>, job: Job<C>)
    ensures w.served <= Act(e, w, job).served
  {
    hide Execute, Prepared, Without, Refusals;
  }

  lemma {:induction false} ServedStays<C, L, D>(e: Engine<C, L, D>, w: W<C, L, D>, jobs: seq<Job<C>>)
    requires Inv(w) && FreshOpens(w.sessions.Keys, jobs)
    ensures w.served <= RunJobs(e, w, jobs).served
    decreases |jobs|
  {
    hide Handle;
    if jobs != [] {
      HandleKeepsInv(e, w, jobs[0]);
      ServedGrows(e, w, jobs[0]);
      var w' := Handle(e, w, jobs[0]);
      FreshOpensRest(w.sessions.Keys, w'.sessions.Keys, jobs);
      ServedStays(e, w', jobs[1..]);
    }
  }

  /** A request with `n` entries before it is served by the time `n + 1` transactions have ended,
      whatever else happens, unless its own session is torn down first. */
  lemma {:induction false} BoundedWaiting<C, L, D>(e: Engine<C, L, D>, w: W<C, L, D>, jobs: seq<Job<C>>,
      p: Pending<C>, n: int)
    requires Inv(w) && FreshOpens(w.sessions.Keys, jobs) && WaitsBehind(w, p, n)
    requires forall i | 0 <= i < |jobs| :: !TearsDown(jobs[i], p.id)
    ensures var w' := RunJobs(e, w, jobs);
            WasServed(w', p) || WaitsBehind(w', p, n - CountReleases(e, w, jobs))
    ensures CountReleases(e, w, jobs) > n ==> WasServed(RunJobs(e, w, jobs), p)
    decreases |jobs|
  {
    hide Handle, Releases;
    if jobs != [] {
      HandleKeepsInv(e, w, jobs[0]);
      HandleAdvances(e, w, jobs[0], p, n);
      var w' := Handle(e, w, jobs[0]);
      FreshOpensRest(w.sessions.Keys, w'.sessions.Keys, jobs);
      if WasServed(w', p) {
        ServedStays(e, w', jobs[1..]);
      } else {
        BoundedWaiting(e, w', jobs[1..], p, if Releases(e, w, jobs[0]) then n - 1 else n);
      }
    }
  }
}
