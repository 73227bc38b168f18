/** What a client is answered and what its request did: every answer of a live session has its own
    segment of the log, and its rows are the rows of the statements in that segment. */
module Receipts {
  import opened Prelude
  import opened Engine
  import opened Script
  import opened Broker
  import I = BrokerInvariants
  import T = Clients
  import M = Composed

  /** The rows of some statements, one after another. */
  function RowsOfSteps<C, L, D>(steps: seq<Step<C, L, D>>): seq<seq<Cell>> {
    if steps == [] then [] else RowsOf(steps[0].ran.rows) + RowsOfSteps(steps[1..])
  }

  /** Statements compiled one behind the other from a script, the first from its start. */
  ghost predicate StepsFrom<C, L, D>(text: seq<C>, steps: seq<Step<C, L, D>>) {
    && (steps != [] ==> steps[0].text == text)
    && forall i | 0 <= i < |steps| :: Suffix(steps[i].text, text)
  }

  ghost predicate Suffix<C>(s: seq<C>, text: seq<C>) {
    exists o: nat :: o <= |text| && s == text[o..]
  }

  // ---------- one script ----------

  lemma TurnRows<C, L, D>(e: Engine<C, L, D>, text: seq<C>, params: seq<Param>, conn: Conn<L, D>, db: D, busy: bool,
                          table: Table)
    ensures var t := OneTurn(e, text, params, conn, db, busy, table);
            && |t.steps| <= 1 && (t.steps != [] ==> t.steps[0].text == text) && (t.result.None? ==> t.steps != [])
            && (t.result.None? || t.result.value.Ok? ==> t.table.rows == table.rows + RowsOfSteps(t.steps))
            && (t.result.Some? && t.result.value.Ok? ==> t.result.value.value == t.table)
  {
    hide BindAll, HasSql, RowsOf;
    NoSuffix(table.rows);
    var t := OneTurn(e, text, params, conn, db, busy, table);
    if t.steps != [] {
      NoSuffix(RowsOf(t.steps[0].ran.rows));
      assert t.steps[1..] == [];
    }
  }

  lemma {:induction false} LoopRows<C, L, D>(e: Engine<C, L, D>, text: seq<C>, params: seq<Param>, conn: Conn<L, D>,
                                             db: D, busy: bool, table: Table)
    ensures var o := Loop(e, text, params, conn, db, busy, table);
            && StepsFrom(text, o.steps)
            && (o.result.Ok? ==> o.result.value.rows == table.rows + RowsOfSteps(o.steps))
    decreases |text|
  {
    var t := OneTurn(e, text, params, conn, db, busy, table);
    TurnRows(e, text, params, conn, db, busy, table);
    hide OneTurn;
    assert text[0..] == text;
    if t.result.None? {
      LoopRows(e, text[t.next..], params, t.conn, t.db, busy, t.table);
      var rest := Loop(e, text[t.next..], params, t.conn, t.db, busy, t.table).steps;
      OneMoreStep(text, t.next, t.steps, rest);
      Assoc(table.rows, RowsOfSteps(t.steps), RowsOfSteps(rest));
    }
  }

  lemma OneMoreStep<C, L, D>(text: seq<C>, next: nat, first: seq<Step<C, L, D>>, rest: seq<Step<C, L, D>>)
    requires |first| == 1 && first[0].text == text && next <= |text| && StepsFrom(text[next..], rest)
    ensures StepsFrom(text, first + rest)
    ensures RowsOfSteps(first + rest) == RowsOfSteps(first) + RowsOfSteps(rest)
  {
    hide Suffix, RowsOf;
    forall i | 0 <= i < |first + rest| ensures Suffix((first + rest)[i].text, text) {
      if i >= |first| {
        SuffixOfSuffix(rest[i - |first|].text, text, next);
      } else {
        SuffixOfSuffix(text, text, 0);
      }
    }
    assert (first + rest)[1..] == rest && first[1..] == [];
    NoSuffix(RowsOf(first[0].ran.rows));
  }

  lemma SuffixOfSuffix<C>(s: seq<C>, text: seq<C>, next: nat)
    requires next <= |text| && (Suffix(s, text[next..]) || (s == text && next == 0))
    ensures Suffix(s, text)
  {
    if s == text {
      assert text == text[0..];
    } else {
      var o: nat :| o <= |text[next..]| && s == text[next..][o..];
      assert s == text[next + o..];
    }
  }

  /** A successful script answers exactly the rows of the statements it ran, a failed one none. */
  lemma ExecuteRows<C, L, D>(e: Engine<C, L, D>, text: seq<C>, params: seq<Param>, conn: Conn<L, D>, db: D, busy: bool)
    ensures var x := Execute(e, text, params, conn, db, busy);
            && StepsFrom(text, x.steps) && (x.response.fault.None? ==> x.response.rows == RowsOfSteps(x.steps))
            && (x.response.fault.Some? ==> x.response.rows == [] && x.response.columns == [])
  {
    LoopRows(e, text, params, conn, db, busy, Table([], []));
    NoPrefix(RowsOfSteps(Execute(e, text, params, conn, db, busy).steps));
    hide Loop, Suffix;
  }

  // ---------- the book of answers ----------

  /** The answer with the number `message` belongs to `req` and to the segment of the log from `at` on:
      an inspection of its session and the statements run. */
  datatype Entry<C, L, D> = Entry(message: nat, req: Request<C>, at: nat, steps: seq<Step<C, L, D>>) {
    function End(): nat { at + 1 + |steps| }
  }

  /** An Exec runs statements of its own text, a Prepare runs none. */
  ghost predicate RanFrom<C, L, D>(req: Request<C>, steps: seq<Step<C, L, D>>) {
    if req.Exec? then StepsFrom(req.sql, steps) else req.Prepare? && steps == []
  }

  ghost predicate HasSegment<C, L, D>(jobs: seq<Job<C>>, sent: seq<Sent>, log: seq<Event<C, L, D>>,
                                      x: Entry<C, L, D>) {
    && x.message < |sent| && sent[x.message].message.Replied? && x.End() <= |log|
    && var (m, r) := (sent[x.message], sent[x.message].message.response);
       && Req(m.id, x.req, m.reply) in jobs
       && log[x.at] == Inspected(m.id) && log[x.at + 1..x.End()] == EventsOf(m.id, x.steps)
       && (x.End() < |log| ==> !log[x.End()].Stepped?)
       && (r.fault.None? ==> r.rows == RowsOfSteps(x.steps))
       && RanFrom(x.req, x.steps)
  }

  /** A message that answers no statement: of an opened or dropped session, of a request that found no
      session or lost it in the queue, or of a Close. */
  ghost predicate Bare<C>(jobs: seq<Job<C>>, m: Sent) {
    m.message.Replied? ==>
      || m.message.response.fault == Some(NoSession) || m.message.response.fault == Some(SessionClosed)
      || (m.message.response == CLOSED_RESPONSE && Req(m.id, Request.Close, m.reply) in jobs)
  }

  ghost predicate Answered<C, L, D>(book: seq<Entry<C, L, D>>, i: nat) {
    exists k | 0 <= k < |book| :: book[k].message == i
  }

  ghost predicate Covered<C, L, D>(book: seq<Entry<C, L, D>>, i: nat) {
    exists k | 0 <= k < |book| :: book[k].at <= i < book[k].End()
  }

  /** Every answer that is not bare has an entry, every inspection and every statement lies in one, and
      answers and segments stand in the same order, no two segments sharing an event. */
  ghost predicate Booked<C, L, D>(jobs: seq<Job<C>>, sent: seq<Sent>, log: seq<Event<C, L, D>>,
                                  book: seq<Entry<C, L, D>>) {
    && (forall k | 0 <= k < |book| :: HasSegment(jobs, sent, log, book[k]))
    && (forall j, k | 0 <= j < k < |book| :: book[j].message < book[k].message && book[j].End() <= book[k].at)
    && (forall i | 0 <= i < |sent| :: Bare(jobs, sent[i]) || Answered(book, i))
    && (forall i | 0 <= i < |log| && (log[i].Stepped? || log[i].Inspected?) :: Covered(book, i))
  }

  lemma SegmentStays<C, L, D>(jobs: seq<Job<C>>, sent: seq<Sent>, log: seq<Event<C, L, D>>, msgs: seq<Sent>,
                              more: seq<Event<C, L, D>>, x: Entry<C, L, D>)
    requires HasSegment(jobs, sent, log, x) && (more != [] ==> !more[0].Stepped?)
    ensures HasSegment(jobs, sent + msgs, log + more, x) && x.message < |sent| && x.End() <= |log|
  {
    hide RanFrom, RowsOfSteps, EventsOf;
    SliceStays(log, more, x.at + 1, x.End());
    assert x.End() < |log| ==> (log + more)[x.End()] == log[x.End()];
    assert x.End() == |log| && more != [] ==> (log + more)[x.End()] == more[0];
    assert (sent + msgs)[x.message] == sent[x.message];
  }

  lemma SliceStays<T>(a: seq<T>, b: seq<T>, i: nat, j: nat)
    requires i <= j <= |a|
    ensures (a + b)[i..j] == a[i..j]
  {
  }

  /** Messages that answer nothing, and sessions that come and go. */
  lemma NothingBooked<C, L, D>(jobs: seq<Job<C>>, sent: seq<Sent>, log: seq<Event<C, L, D>>,
                               book: seq<Entry<C, L, D>>, msgs: seq<Sent>, more: seq<Event<C, L, D>>)
    requires Booked(jobs, sent, log, book)
    requires forall m | m in msgs :: Bare(jobs, m)
    requires forall ev | ev in more :: ev.Joined? || ev.Left?
    ensures Booked(jobs, sent + msgs, log + more, book)
  {
    hide HasSegment, Bare, Covered, Answered;
    assert more != [] ==> more[0] in more;
    forall k | 0 <= k < |book| ensures HasSegment(jobs, sent + msgs, log + more, book[k]) {
      SegmentStays(jobs, sent, log, msgs, more, book[k]);
    }
    forall i | |sent| <= i < |sent + msgs| ensures Bare(jobs, (sent + msgs)[i]) {
      assert (sent + msgs)[i] in msgs;
    }
    forall i | |log| <= i < |log + more| ensures !(log + more)[i].Stepped? && !(log + more)[i].Inspected? {
      assert (log + more)[i] in more;
    }
  }

  /** One dispatched request of a live session. */
  lemma OneBooked<C, L, D>(jobs: seq<Job<C>>, sent: seq<Sent>, log: seq<Event<C, L, D>>, book: seq<Entry<C, L, D>>,
                           m: Sent, req: Request<C>, steps: seq<Step<C, L, D>>)
    requires Booked(jobs, sent, log, book) && m.message.Replied? && Req(m.id, req, m.reply) in jobs
    requires m.message.response.fault.None? ==> m.message.response.rows == RowsOfSteps(steps)
    requires RanFrom(req, steps)
    ensures Booked(jobs, sent + [m], log + ([Inspected(m.id)] + EventsOf(m.id, steps)),
                   book + [Entry(|sent|, req, |log|, steps)])
  {
    hide HasSegment, Covered, Answered, RowsOfSteps, EventsOf, Bare, RanFrom;
    var x := Entry(|sent|, req, |log|, steps);
    var more := [Inspected(m.id)] + EventsOf(m.id, steps);
    NewSegment(jobs, sent, log, m, req, steps);
    forall k | 0 <= k < |book|
      ensures HasSegment(jobs, sent + [m], log + more, book[k])
      ensures book[k].message < |sent| && book[k].End() <= |log|
    {
      SegmentStays(jobs, sent, log, [m], more, book[k]);
    }
    BookGrows(jobs, sent, log, book, m, more, x);
  }

  lemma NewSegment<C, L, D>(jobs: seq<Job<C>>, sent: seq<Sent>, log: seq<Event<C, L, D>>, m: Sent, req: Request<C>,
                            steps: seq<Step<C, L, D>>)
    requires m.message.Replied? && Req(m.id, req, m.reply) in jobs && RanFrom(req, steps)
    requires m.message.response.fault.None? ==> m.message.response.rows == RowsOfSteps(steps)
    ensures HasSegment(jobs, sent + [m], log + ([Inspected(m.id)] + EventsOf(m.id, steps)),
                       Entry(|sent|, req, |log|, steps))
  {
    hide RowsOfSteps, EventsOf, RanFrom;
    var x := Entry(|sent|, req, |log|, steps);
    var more := [Inspected(m.id)] + EventsOf(m.id, steps);
    assert (log + more)[x.at + 1..x.End()] == EventsOf(m.id, steps);
  }

  lemma BookGrows<C, L, D>(jobs: seq<Job<C>>, sent: seq<Sent>, log: seq<Event<C, L, D>>,
                           book: seq<Entry<C, L, D>>, m: Sent, more: seq<Event<C, L, D>>, x: Entry<C, L, D>)
    requires x.message == |sent| && x.at == |log| && x.End() == |log| + |more|
    requires forall i | 0 <= i < |sent| :: Bare(jobs, sent[i]) || Answered(book, i)
    requires forall i | 0 <= i < |log| && (log[i].Stepped? || log[i].Inspected?) :: Covered(book, i)
    ensures forall i | 0 <= i < |sent + [m]| :: Bare(jobs, (sent + [m])[i]) || Answered(book + [x], i)
    ensures forall i | 0 <= i < |log + more| && ((log + more)[i].Stepped? || (log + more)[i].Inspected?) ::
              Covered(book + [x], i)
  {
    hide Bare;
    var book' := book + [x];
    assert book'[|book|] == x;
    forall i | 0 <= i < |sent + [m]| ensures Bare(jobs, (sent + [m])[i]) || Answered(book', i) {
      if i < |sent| && Answered(book, i) {
        var k :| 0 <= k < |book| && book[k].message == i;
        assert book'[k] == book[k];
      }
    }
    forall i | 0 <= i < |log + more| && ((log + more)[i].Stepped? || (log + more)[i].Inspected?)
      ensures Covered(book', i)
    {
      if i < |log| {
        assert Covered(book, i);
        var k :| 0 <= k < |book| && book[k].at <= i < book[k].End();
        assert book'[k] == book[k];
      }
    }
  }

  // ---------- the worker ----------

  /** The book of a worker, whose queue holds requests that were handed in. */
  ghost predicate Kept<C, L, D>(jobs: seq<Job<C>>, w: W<C, L, D>, book: seq<Entry<C, L, D>>) {
    && Booked(jobs, w.sent, w.log, book)
    && forall i | 0 <= i < |w.pending| :: Req(w.pending[i].id, w.pending[i].req, w.pending[i].reply) in jobs
  }

  lemma DispatchBooks<C, L, D>(e: Engine<C, L, D>, jobs: seq<Job<C>>, w: W<C, L, D>, p: Pending<C>, held: bool,
                               book: seq<Entry<C, L, D>>) returns (book': seq<Entry<C, L, D>>)
    requires Kept(jobs, w, book) && Req(p.id, p.req, p.reply) in jobs
    ensures Kept(jobs, Dispatch(e, w, p, held), book')
  {
    hide Booked, Execute, Prepared, RowsOfSteps, StepsFrom, EventsOf;
    book' := book;
    if p.req.Close? {
      DropBooks(jobs, w, p.id, book);
      var w1 := DropSession(w, p.id);
      NoSuffix(w1.log);
      hide DropSession;
      NothingBooked(jobs, w1.sent, w1.log, book, [Sent(p.reply, p.id, Replied(CLOSED_RESPONSE))], []);
    } else if p.id !in w.sessions {
      NoSuffix(w.log);
      NothingBooked(jobs, w.sent, w.log, book, [Sent(p.reply, p.id, Replied(ErrorResponse(true, NoSession)))], []);
    } else if p.req.Exec? {
      book' := ExecBooks(e, jobs, w, p, held, book);
    } else {
      book' := PrepareBooks(e, jobs, w, p, held, book);
    }
  }

  lemma ExecBooks<C, L, D>(e: Engine<C, L, D>, jobs: seq<Job<C>>, w: W<C, L, D>, p: Pending<C>, held: bool,
                           book: seq<Entry<C, L, D>>) returns (book': seq<Entry<C, L, D>>)
    requires Kept(jobs, w, book) && Req(p.id, p.req, p.reply) in jobs && p.id in w.sessions && p.req.Exec?
    ensures Kept(jobs, RunExec(e, w, p, held), book')
  {
    hide Booked, Execute, RowsOfSteps, StepsFrom, EventsOf;
    var x := Execute(e, p.req.sql, p.req.params, w.sessions[p.id], w.db, OthersLocked(w.sessions, p.id));
    ExecuteRows(e, p.req.sql, p.req.params, w.sessions[p.id], w.db, OthersLocked(w.sessions, p.id));
    OneBooked(jobs, w.sent, w.log, book, Sent(p.reply, p.id, Replied(x.response)), p.req, x.steps);
    Assoc(w.log, [Inspected(p.id)], EventsOf(p.id, x.steps));
    book' := book + [Entry(|w.sent|, p.req, |w.log|, x.steps)];
  }

  lemma PrepareBooks<C, L, D>(e: Engine<C, L, D>, jobs: seq<Job<C>>, w: W<C, L, D>, p: Pending<C>, held: bool,
                              book: seq<Entry<C, L, D>>) returns (book': seq<Entry<C, L, D>>)
    requires Kept(jobs, w, book) && Req(p.id, p.req, p.reply) in jobs && p.id in w.sessions && p.req.Prepare?
    ensures Kept(jobs, RunPrepare(e, w, p, held), book')
  {
    hide Booked;
    var r := Prepared(e, p.req.sql, w.sessions[p.id], w.db, OthersLocked(w.sessions, p.id));
    assert r.rows == [];
    OneBooked(jobs, w.sent, w.log, book, Sent(p.reply, p.id, Replied(r)), p.req, []);
    NoSuffix<Event<C, L, D>>([Inspected(p.id)]);
    book' := book + [Entry(|w.sent|, p.req, |w.log|, [])];
  }

  lemma DropBooks<C, L, D>(jobs: seq<Job<C>>, w: W<C, L, D>, id: Session, book: seq<Entry<C, L, D>>)
    requires Kept(jobs, w, book)
    ensures Kept(jobs, DropSession(w, id), book)
  {
    I.WithoutKeeps(w.pending, id);
    I.RefusalsAreClosed(w.pending, id);
    hide Booked, Without, Refusals;
    NothingBooked(jobs, w.sent, w.log, book, Refusals(w.pending, id), if id in w.sessions then [Left(id)] else []);
    NoSuffix(w.log);
    forall i | 0 <= i < |Without(w.pending, id)|
      ensures var p := Without(w.pending, id)[i]; Req(p.id, p.req, p.reply) in jobs
    {
      assert Without(w.pending, id)[i] in w.pending;
    }
  }

  lemma {:induction false} PumpBooks<C, L, D>(e: Engine<C, L, D>, jobs: seq<Job<C>>, w: W<C, L, D>,
                                              book: seq<Entry<C, L, D>>) returns (book': seq<Entry<C, L, D>>)
    requires Kept(jobs, w, book)
    ensures Kept(jobs, Pump(e, w), book')
    decreases |w.pending|
  {
    hide Booked, Dispatch;
    book' := book;
    if w.holder.None? && w.pending != [] {
      var p, rest := w.pending[0], w.(pending := w.pending[1..]);
      DispatchShrinksQueue(e, rest, p, false);
      book' := DispatchBooks(e, jobs, rest, p, false, book);
      book' := PumpBooks(e, jobs, Dispatch(e, rest, p, false), book');
    }
  }

  lemma HandleBooks<C, L, D>(e: Engine<C, L, D>, jobs: seq<Job<C>>, w: W<C, L, D>, job: Job<C>,
                             book: seq<Entry<C, L, D>>) returns (book': seq<Entry<C, L, D>>)
    requires Kept(jobs, w, book) && job in jobs
    ensures Kept(jobs, Handle(e, w, job), book')
  {
    hide Booked, Dispatch, DropSession, Pump;
    book' := book;
    if !Waits(w, job) {
      match job {
        case Open(id, reply, opens) =>
          NoSuffix(w.log);
          var more := if opens then [Joined(id)] else [];
          NothingBooked(jobs, w.sent, w.log, book, [Sent(reply, id, Opened(opens))], more);
        case Drop(id, reply) =>
          DropBooks(jobs, w, id, book);
          var w1 := DropSession(w, id);
          NoSuffix(w1.log);
          NothingBooked(jobs, w1.sent, w1.log, book, [Sent(reply, id, Dropped)], []);
        case Req(id, req, reply) =>
          book' := DispatchBooks(e, jobs, w, Pending(id, req, reply), w.holder == Some(id), book);
      }
      book' := PumpBooks(e, jobs, Act(e, w, job), book');
    }
  }

  lemma {:induction false} JobsBook<C, L, D>(e: Engine<C, L, D>, all: seq<Job<C>>, w: W<C, L, D>, jobs: seq<Job<C>>,
                                             book: seq<Entry<C, L, D>>) returns (book': seq<Entry<C, L, D>>)
    requires Kept(all, w, book) && forall i | 0 <= i < |jobs| :: jobs[i] in all
    ensures Kept(all, RunJobs(e, w, jobs), book')
    decreases |jobs|
  {
    hide Kept, Handle;
    book' := book;
    if jobs != [] {
      book' := HandleBooks(e, all, w, jobs[0], book);
      book' := JobsBook(e, all, Handle(e, w, jobs[0]), jobs[1..], book');
    }
  }

  // ---------- the theorems ----------

  /** In every run, every answer to a statement or a compilation on a live session has a segment of the
      log of its own, in the same order: the answer's rows are exactly the rows of the statements its
      request ran there, those statements were compiled one behind the other from the request's text,
      and every statement in the log was run for exactly one answer. */
  lemma EveryAnswerHasItsSegment<C, L, D>(e: Engine<C, L, D>, d0: D, jobs: seq<Job<C>>)
    returns (book: seq<Entry<C, L, D>>)
    ensures var w := RunJobs(e, Start(d0), jobs); Booked(jobs, w.sent, w.log, book)
  {
    var w: W<C, L, D> := Start(d0);
    assert Kept(jobs, w, []);
    hide Booked, RunJobs;
    book := JobsBook(e, jobs, w, jobs, []);
  }

  /** So has every answer in every reachable state of the clients, the channel and the worker. */
  lemma SystemAnswersItsOwn<C(!new), L, D>(e: Engine<C, L, D>, d0: D, s: T.Sys<C, L, D>)
    returns (jobs: seq<Job<C>>, book: seq<Entry<C, L, D>>)
    requires T.Reachable(e, d0, s)
    ensures s.w == RunJobs(e, Start(d0), jobs) && Booked(jobs, s.w.sent, s.w.log, book)
  {
    jobs := M.SystemRunsJobs(e, d0, s);
    hide Booked, RunJobs, T.Reachable;
    book := EveryAnswerHasItsSegment(e, d0, jobs);
  }
}
