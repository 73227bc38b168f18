/** No answer ever carries the code SQLITE_BUSY: the broker keeps other locks away from a statement,
    and SQLite alone with the file does not answer busy. */
module Busy {
  import opened Prelude
  import opened Engine
  import opened Script
  import opened Broker
  import opened BrokerInvariants

  /** A connection that meets no other lock is not answered SQLITE_BUSY. */
  ghost predicate NeverBusyAlone<C(!new), L(!new), D(!new)>(e: Engine<C, L, D>) {
    && (forall text: seq<C>, local: L, view: D {:trigger e.compile(text, local, view)} ::
          e.compile(text, local, view) != Failed(SQLITE_BUSY))
    && (forall text: seq<C>, binds: seq<Bind>, local: L, view: D, inTx: bool
          {:trigger e.run(text, binds, local, view, inTx)} ::
          e.run(text, binds, local, view, inTx).error != Some(SQLITE_BUSY))
  }

  predicate BusyFault(f: Option<Fault>) {
    f.Some? && CodeOf(f.value) == SQLITE_BUSY
  }

  ghost predicate NoBusyCode(sent: seq<Sent>) {
    forall i | 0 <= i < |sent| && sent[i].message.Replied? :: !BusyFault(sent[i].message.response.fault)
  }

  lemma {:induction false} LoopIsNotBusy<C(!new), L(!new), D(!new)>(
    e: Engine<C, L, D>, text: seq<C>, params: seq<Param>, conn: Conn<L, D>, db: D, table: Table)
    requires NeverBusyAlone(e)
    ensures var r := Loop(e, text, params, conn, db, false, table).result; r.Err? ==> CodeOf(r.error) != SQLITE_BUSY
    decreases |text|
  {
    var t := OneTurn(e, text, params, conn, db, false, table);
    TurnIsNotBusy(e, text, params, conn, db, table);
    hide OneTurn, NeverBusyAlone;
    if t.result.None? {
      LoopIsNotBusy(e, text[t.next..], params, t.conn, t.db, t.table);
    }
  }

  lemma TurnIsNotBusy<C(!new), L(!new), D(!new)>(
    e: Engine<C, L, D>, text: seq<C>, params: seq<Param>, conn: Conn<L, D>, db: D, table: Table)
    requires NeverBusyAlone(e)
    ensures var r := OneTurn(e, text, params, conn, db, false, table).result;
            r.Some? && r.value.Err? ==> CodeOf(r.value.error) != SQLITE_BUSY
  {
    BindFaults(e, text, params);
    hide BindAll, HasSql, RowsOf;
  }

  /** With no lock elsewhere neither Exec nor Prepare answers the code busy. */
  lemma FreeIsNotBusy<C(!new), L(!new), D(!new)>(e: Engine<C, L, D>, text: seq<C>, params: seq<Param>,
                        conn: Conn<L, D>, db: D)
    requires NeverBusyAlone(e)
    ensures !BusyFault(Execute(e, text, params, conn, db, false).response.fault)
    ensures !BusyFault(Prepared(e, text, conn, db, false).fault)
  {
    LoopIsNotBusy(e, text, params, conn, db, Table([], []));
    hide Loop;
  }

  lemma DispatchIsNotBusy<C(!new), L(!new), D(!new)>(e: Engine<C, L, D>, w: W<C, L, D>, p: Pending<C>, held: bool)
    requires NeverBusyAlone(e) && Core(w) && MayRun(w, p.id) && NoBusyCode(w.sent) && !p.req.Close?
    ensures NoBusyCode(Dispatch(e, w, p, held).sent)
  {
    NoOtherLock(w, p.id);
    if p.id in w.sessions {
      FreeIsNotBusy(e, p.req.sql, if p.req.Exec? then p.req.params else [], w.sessions[p.id], w.db);
    }
    hide NeverBusyAlone, Execute, Prepared, Core;
  }

  lemma DropIsNotBusy<C, L, D>(w: W<C, L, D>, id: Session)
    requires NoBusyCode(w.sent)
    ensures NoBusyCode(DropSession(w, id).sent)
  {
    RefusalsAreClosed(w.pending, id);
    hide Refusals, Without;
    var refusals := Refusals(w.pending, id);
    forall i | |w.sent| <= i < |w.sent + refusals| ensures !BusyFault((w.sent + refusals)[i].message.response.fault) {
      assert (w.sent + refusals)[i] in refusals;
    }
  }

  lemma {:induction false} PumpIsNotBusy<C(!new), L(!new), D(!new)>(e: Engine<C, L, D>, w: W<C, L, D>)
    requires NeverBusyAlone(e) && Core(w) && NoBusyCode(w.sent)
    ensures NoBusyCode(Pump(e, w).sent)
    decreases |w.pending|
  {
    hide NeverBusyAlone, NoBusyCode;
    if w.holder.None? && w.pending != [] {
      var p, rest := w.pending[0], w.(pending := w.pending[1..]);
      DispatchKeepsCore(e, rest, p, false);
      DispatchIsNotBusy(e, rest, p, false);
      hide Dispatch;
      PumpIsNotBusy(e, Dispatch(e, rest, p, false));
    }
  }

  lemma HandleIsNotBusy<C(!new), L(!new), D(!new)>(e: Engine<C, L, D>, w: W<C, L, D>, job: Job<C>)
    requires NeverBusyAlone(e) && Inv(w) && OpensFresh(w, job) && NoBusyCode(w.sent)
    ensures NoBusyCode(Handle(e, w, job).sent)
  {
    hide NeverBusyAlone, Pump;
    if !Waits(w, job) {
      ActKeepsCore(e, w, job);
      if job.Drop? || (job.Req? && job.req.Close?) {
        DropIsNotBusy(w, job.id);
        hide DropSession;
      } else if job.Req? {
        DispatchIsNotBusy(e, w, Pending(job.id, job.req, job.reply), w.holder == Some(job.id));
        hide Dispatch;
      }
      PumpIsNotBusy(e, Act(e, w, job));
    }
  }

  lemma {:induction false} JobsAreNotBusy<C(!new), L(!new), D(!new)>(e: Engine<C, L, D>, w: W<C, L, D>,
                                            jobs: seq<Job<C>>)
    requires NeverBusyAlone(e) && Inv(w) && FreshOpens(w.sessions.Keys, jobs) && NoBusyCode(w.sent)
    ensures NoBusyCode(RunJobs(e, w, jobs).sent)
    decreases |jobs|
  {
    hide NeverBusyAlone, Handle, NoBusyCode, Inv;
    if jobs != [] {
      HandleKeepsInv(e, w, jobs[0]);
      HandleIsNotBusy(e, w, jobs[0]);
      var w' := Handle(e, w, jobs[0]);
      FreshOpensRest(w.sessions.Keys, w'.sessions.Keys, jobs);
      JobsAreNotBusy(e, w', jobs[1..]);
    }
  }

  /** In every run, whatever is opened, closed, lost or left open by failed scripts, no answer has the
      code SQLITE_BUSY. */
  lemma BusyIsImpossible<C(!new), L(!new), D(!new)>(e: Engine<C, L, D>, d0: D, jobs: seq<Job<C>>)
    requires NeverBusyAlone(e) && FreshOpens({}, jobs)
    ensures NoBusyCode(RunJobs(e, Start(d0), jobs).sent)
  {
    var w: W<C, L, D> := Start(d0);
    assert Inv(w) && NoBusyCode(w.sent);
    JobsAreNotBusy(e, w, jobs);
  }
}
