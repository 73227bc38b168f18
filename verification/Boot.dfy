/** Processes that migrate the shared file on startup: each sends what its last answer calls for. */
module Boot {
  import opened Prelude
  import opened Engine
  import opened Script
  import opened Broker
  import opened BrokerInvariants
  import opened Migration

  // ---------- one process ----------

  /** Where a process stands in `boot` and `migrate`. */
  datatype PC =
    | Creating
    | Starting(v: nat)
    | Asking(v: nat)
    | Counting(v: nat)
    | Skipping(v: nat)
    | Altering(v: nat)
    | Marking(v: nat)
    | Committing(v: nat)
    | Undoing
    | Finished
    | GaveUp

  function StartNext(plan: Plan, v: nat): PC {
    if v <= |plan| then Starting(v) else Finished
  }

  function Single(stmt: Sql): Option<Request<Sql>> {
    Some(Exec([stmt], []))
  }

  /** The request a process sends next. A query is a Prepare and then an Exec. */
  function Wanted(plan: Plan, pc: PC): Option<Request<Sql>> {
    match pc
    case Creating => Single(CreateLedger)
    case Starting(_) => Single(Begin)
    case Asking(v) => Some(Prepare([CountVersion(v)]))
    case Counting(v) => Single(CountVersion(v))
    case Skipping(_) => Single(Commit)
    case Altering(v) => Some(Exec(DdlFrom(plan, v, 0), []))
    case Marking(v) => Single(Mark(v))
    case Committing(_) => Single(Commit)
    case Undoing => Single(Rollback)
    case _ => None
  }

  predicate AlreadyApplied(rows: seq<seq<Cell>>) {
    rows != [] && rows[0] != [] && rows[0][0] == IntCell(1)
  }

  /** Where a process stands once it has its answer. */
  function AfterAnswer(plan: Plan, pc: PC, r: Response, benign: Fault -> bool): PC {
    var failed := r.fault.Some?;
    match pc
    case Creating => if failed then GaveUp else StartNext(plan, 1)
    case Starting(v) => if failed then GaveUp else Asking(v)
    case Asking(v) => if failed then Undoing else Counting(v)
    case Counting(v) => if failed then Undoing else if AlreadyApplied(r.rows) then Skipping(v) else Altering(v)
    case Skipping(v) => if failed then GaveUp else StartNext(plan, v + 1)
    case Altering(v) => if failed && !benign(r.fault.value) then Undoing else Marking(v)
    case Marking(v) => if failed then Undoing else Committing(v)
    case Committing(v) => if failed then GaveUp else StartNext(plan, v + 1)
    case Undoing => GaveUp
    case _ => pc
  }

  /** What a run starts from: the plan, the errors the driver ignores, and the file. */
  datatype Setup = Setup(plan: Plan, benign: Fault -> bool, before: Schema)

  function Stand(u: Setup, answers: seq<Response>): PC {
    if answers == [] then Creating
    else AfterAnswer(u.plan, Stand(u, answers[..|answers| - 1]), answers[|answers| - 1], u.benign)
  }

  // ---------- what the broker has answered ----------

  /** A message that answers one of the processes' calls; `calls` are their reply channels. */
  predicate IsAnswer(calls: set<Ticket>, m: Sent, id: Session) {
    m.message.Replied? && m.reply in calls && m.id == id
  }

  /** The answers to one process, in order. */
  function Answers(calls: set<Ticket>, sent: seq<Sent>, id: Session): seq<Response> {
    if sent == [] then []
    else
      var front, m := Answers(calls, sent[..|sent| - 1], id), sent[|sent| - 1];
      if IsAnswer(calls, m, id) then front + [m.message.response] else front
  }

  /** Where a process will stand when it has heard every answer sent so far. */
  function StandOf(u: Setup, calls: set<Ticket>, sent: seq<Sent>, id: Session): PC {
    Stand(u, Answers(calls, sent, id))
  }

  /** The answer reports that a version was committed. */
  predicate Commits(pc: PC, r: Response) {
    pc.Committing? && r.fault.None?
  }

  /** The committed migrations, in order: by whom, and which version. */
  function Wins(u: Setup, calls: set<Ticket>, sent: seq<Sent>): seq<(Session, nat)> {
    if sent == [] then []
    else
      var front, m := sent[..|sent| - 1], sent[|sent| - 1];
      var pc := StandOf(u, calls, front, m.id);
      if IsAnswer(calls, m, m.id) && Commits(pc, m.message.response) then Wins(u, calls, front) + [(m.id, pc.v)]
      else Wins(u, calls, front)
  }

  lemma AnswersGrow(calls: set<Ticket>, sent: seq<Sent>, m: Sent, id: Session)
    ensures Answers(calls, sent + [m], id) ==
            if IsAnswer(calls, m, id) then Answers(calls, sent, id) + [m.message.response] else Answers(calls, sent, id)
  {
    assert (sent + [m])[..|sent + [m]| - 1] == sent;
  }

  lemma StandGrows(u: Setup, answers: seq<Response>, r: Response)
    ensures Stand(u, answers + [r]) == AfterAnswer(u.plan, Stand(u, answers), r, u.benign)
  {
    assert (answers + [r])[..|answers + [r]| - 1] == answers;
  }

  lemma WinsGrow(u: Setup, calls: set<Ticket>, sent: seq<Sent>, m: Sent)
    ensures var pc := StandOf(u, calls, sent, m.id);
            Wins(u, calls, sent + [m]) ==
              if IsAnswer(calls, m, m.id) && Commits(pc, m.message.response) then Wins(u, calls, sent) + [(m.id, pc.v)]
              else Wins(u, calls, sent)
  {
    assert (sent + [m])[..|sent + [m]| - 1] == sent;
  }

  // ---------- the invariant on the broker ----------

  predicate MidTransaction(pc: PC) {
    pc.Asking? || pc.Counting? || pc.Skipping? || pc.Altering? || pc.Marking? || pc.Committing?
  }

  /** The working copy of the transaction's owner, by where the owner stands. */
  predicate WorkingFits(plan: Plan, pc: PC, d: Schema, working: Schema) {
    match pc
    case Asking(_) => working == d
    case Counting(_) => working == d
    case Skipping(v) => working == d && v in d.marks
    case Altering(v) => working == d && v !in d.marks
    case Marking(v) => v !in d.marks && working == DoneParts(plan, d, v, Stop(plan, d, v))
    case Committing(v) => v !in d.marks && working == Changed(plan, DoneParts(plan, d, v, Stop(plan, d, v)), Mark(v))
    case Undoing => true
    case GaveUp => true
    case _ => false
  }

  function VersionOf(plan: Plan, pc: PC): nat {
    match pc
    case Creating => 1
    case Undoing => 0
    case GaveUp => 0
    case Finished => |plan| + 1
    case _ => pc.v
  }

  /** A process working on a version has seen every earlier version in the ledger. */
  ghost predicate EarlierDone(plan: Plan, pc: PC, marks: set<nat>) {
    && (MidTransaction(pc) || pc.Starting? ==> 1 <= pc.v <= |plan|)
    && forall v: nat | 1 <= v < VersionOf(plan, pc) :: v in marks
  }

  /** How often a part is in effect: a version added since has had its script run, once, up to the
      first part that was blocked; no other part has been touched. */
  function Expected(u: Setup, marks: set<nat>, v: nat, part: nat): nat {
    var n := u.before.applied[(v, part)];
    if v in marks && v !in u.before.marks && part < Stop(u.plan, u.before, v) then Bump(KindOf(u.plan, v, part), n)
        else n
  }

  ghost predicate FileFits(u: Setup, d: Schema) {
    && u.before.marks <= d.marks && (forall v | v in d.marks && v !in u.before.marks :: 1 <= v <= |u.plan|)
    && forall v: nat, part: nat :: d.applied[(v, part)] == Expected(u, d.marks, v, part)
  }

  /** The versions that entered the ledger since `before` are those committed, one commit for each. */
  ghost predicate WinsFit(wins: seq<(Session, nat)>, before: set<nat>, marks: set<nat>) {
    && (forall i | 0 <= i < |wins| :: wins[i].1 in marks && wins[i].1 !in before)
    && (forall i, j | 0 <= i < j < |wins| :: wins[i].1 != wins[j].1)
    && (forall v | v in marks && v !in before :: exists i | 0 <= i < |wins| :: wins[i].1 == v)
  }

  /** What the processes' side knows: the reply channels of their calls, how many answers each has
      heard, and which `migrate` calls have returned 1. */
  datatype Books = Books(calls: set<Ticket>, heard: map<Session, nat>, returned: seq<(Session, nat)>)

  /** The process's COMMIT of `v` succeeded, and the process has not heard so. */
  ghost predicate Unheard(u: Setup, b: Books, sent: seq<Sent>, id: Session, v: nat) {
    var answers := Answers(b.calls, sent, id);
    && id in b.heard && b.heard[id] < |answers|
    && Stand(u, answers[..b.heard[id]]) == Committing(v) && answers[b.heard[id]].fault.None?
  }

  /** Messages go to known processes, and every commit has been heard of or not. */
  ghost predicate HeardFits(u: Setup, b: Books, sent: seq<Sent>) {
    && (forall i | 0 <= i < |sent| :: sent[i].id in b.heard)
    && (forall win | win in Wins(u, b.calls, sent) :: win in b.returned || Unheard(u, b, sent, win.0, win.1))
  }

  /** A queued or arriving call is what its process wants, and the process has heard all its answers. */
  ghost predicate CallFits(u: Setup, b: Books, sent: seq<Sent>, p: Pending<Sql>) {
    && p.reply in b.calls && p.id in b.heard && b.heard[p.id] == |Answers(b.calls, sent, p.id)|
    && Wanted(u.plan, StandOf(u, b.calls, sent, p.id)) == Some(p.req)
  }

  ghost predicate QueueFits(u: Setup, b: Books, sent: seq<Sent>, pending: seq<Pending<Sql>>, live: set<Session>) {
    && (forall i | 0 <= i < |pending| :: pending[i].id in live && CallFits(u, b, sent, pending[i]))
    && (forall i, j | 0 <= i < j < |pending| :: pending[i].id != pending[j].id)
  }

  ghost predicate ProcFits(u: Setup, b: Books, sent: seq<Sent>, d: Schema, holder: Option<Session>, id: Session) {
    var pc := StandOf(u, b.calls, sent, id);
    && EarlierDone(u.plan, pc, d.marks) && (MidTransaction(pc) ==> holder == Some(id))
    && id in b.heard && b.heard[id] <= |Answers(b.calls, sent, id)| <= b.heard[id] + 1
  }

  ghost predicate HolderFits<L>(u: Setup, b: Books, w: W<Sql, L, Schema>) {
    w.holder.Some? ==>
      && w.holder.value in w.sessions && w.sessions[w.holder.value].tx.Some?
      && WorkingFits(u.plan, StandOf(u, b.calls, w.sent, w.holder.value), w.db, w.sessions[w.holder.value].tx.value)
  }

  ghost predicate BrokerFits<L>(u: Setup, b: Books, w: W<Sql, L, Schema>) {
    && Core(w)
    && QueueFits(u, b, w.sent, w.pending, w.sessions.Keys)
    && (forall id | id in w.sessions :: ProcFits(u, b, w.sent, w.db, w.holder, id))
    && HolderFits(u, b, w)
    && FileFits(u, w.db) && WinsFit(Wins(u, b.calls, w.sent), u.before.marks, w.db.marks)
    && HeardFits(u, b, w.sent)
  }

  // ---------- what one call does ----------

  lemma {:induction false} SameStop(plan: Plan, d: Schema, d': Schema, v: nat, part: nat)
    requires forall i: nat :: d.applied[(v, i)] == d'.applied[(v, i)]
    ensures StopFrom(plan, d, v, part) == StopFrom(plan, d', v, part)
    decreases Parts(plan, v) - part
  {
    if part < Parts(plan, v) {
      SameStop(plan, d, d', v, part + 1);
    }
  }

  /** Committing a version keeps the file as expected. */
  lemma CommitFits(u: Setup, d: Schema, v: nat)
    requires FileFits(u, d) && v !in d.marks && 1 <= v <= |u.plan|
    ensures FileFits(u, Changed(u.plan, DoneParts(u.plan, d, v, Stop(u.plan, d, v)), Mark(v)))
  {
    var n := Stop(u.plan, d, v);
    var d' := Changed(u.plan, DoneParts(u.plan, d, v, n), Mark(v));
    forall i: nat ensures d.applied[(v, i)] == u.before.applied[(v, i)] {
      assert d.applied[(v, i)] == Expected(u, d.marks, v, i);
    }
    SameStop(u.plan, d, u.before, v, 0);
    DonePartsAre(u.plan, d, v, n);
    hide Stop, DoneParts, Bump, KindOf;
    forall k: nat, i: nat ensures d'.applied[(k, i)] == Expected(u, d'.marks, k, i) {
      assert d.applied[(k, i)] == Expected(u, d.marks, k, i);
    }
  }

  /** The fit of one connection to where its process stands. */
  ghost predicate ConnFits<L>(plan: Plan, pc: PC, conn: Conn<L, Schema>, db: Schema) {
    && EarlierDone(plan, pc, db.marks)
    && (if conn.tx.Some? then WorkingFits(plan, pc, db, conn.tx.value) else !MidTransaction(pc))
  }

  /** What a call changes in the ledger. */
  ghost predicate MarksFit(pc: PC, r: Response, d: Schema, d': Schema) {
    if Commits(pc, r) then pc.v !in d.marks && d'.marks == d.marks + {pc.v} else d'.marks == d.marks
  }

  lemma FailureFits<L>(u: Setup, pc: PC, stmt: Sql, conn: Conn<L, Schema>, db: Schema, conn': Conn<L, Schema>,
                       r: Response)
    requires ConnFits(u.plan, pc, conn, db) && Wanted(u.plan, pc) == Single(stmt) && !pc.Altering? && r.fault.Some?
    requires DidNot(u.plan, stmt, conn, db, conn', db, u.benign(r.fault.value))
    ensures ConnFits(u.plan, AfterAnswer(u.plan, pc, r, u.benign), conn', db) && MarksFit(pc, r, db, db)
  {
    hide DoneParts, Stop, Changed, Blocked;
  }

  lemma CommitSucceeds<L>(u: Setup, pc: PC, conn: Conn<L, Schema>, db: Schema, conn': Conn<L, Schema>, db': Schema,
                          r: Response)
    requires ConnFits(u.plan, pc, conn, db) && FileFits(u, db) && pc.Committing? && r.fault.None?
    requires Did(u.plan, Commit, conn, db, conn', db')
    ensures ConnFits(u.plan, AfterAnswer(u.plan, pc, r, u.benign), conn', db') && FileFits(u, db')
            && MarksFit(pc, r, db, db')
  {
    CommitFits(u, db, pc.v);
    DonePartsAre(u.plan, db, pc.v, Stop(u.plan, db, pc.v));
    hide FileFits, DoneParts, Stop;
  }

  lemma SuccessFits<L>(u: Setup, pc: PC, stmt: Sql, conn: Conn<L, Schema>, db: Schema, conn': Conn<L, Schema>,
                       db': Schema, r: Response)
    requires ConnFits(u.plan, pc, conn, db) && FileFits(u, db) && !pc.Committing? && !pc.Altering? && !pc.Creating?
    requires Wanted(u.plan, pc) == Single(stmt) && r.fault.None? && Did(u.plan, stmt, conn, db, conn', db')
    requires stmt.CountVersion? ==> r.rows == [[IntCell(if stmt.v in conn.View(db).marks then 1 else 0)]]
    ensures ConnFits(u.plan, AfterAnswer(u.plan, pc, r, u.benign), conn', db') && db' == db
  {
    hide FileFits, DoneParts, Stop, Altered, Blocked;
  }

  lemma CreationFits<L>(u: Setup, pc: PC, conn: Conn<L, Schema>, db: Schema, conn': Conn<L, Schema>, db': Schema,
                        r: Response)
    requires ConnFits(u.plan, pc, conn, db) && FileFits(u, db) && pc.Creating? && r.fault.None?
    requires Did(u.plan, CreateLedger, conn, db, conn', db')
    ensures ConnFits(u.plan, AfterAnswer(u.plan, pc, r, u.benign), conn', db') && FileFits(u, db')
            && MarksFit(pc, r, db, db')
  {
    LedgerFits(u, db);
    hide FileFits, DoneParts, Stop;
  }

  lemma ExecFits<L(!new)>(e: Engine<Sql, L, Schema>, u: Setup, pc: PC, text: seq<Sql>, conn: Conn<L, Schema>,
                   db: Schema)
    requires MigrationEngine(e, u.plan, u.benign) && FileFits(u, db) && ConnFits(u.plan, pc, conn, db)
    requires Wanted(u.plan, pc) == Some(Exec(text, []))
    ensures var x := Execute(e, text, [], conn, db, false);
            var pc' := AfterAnswer(u.plan, pc, x.response, u.benign);
            ConnFits(u.plan, pc', x.conn, x.db) && FileFits(u, x.db) && MarksFit(pc, x.response, db, x.db)
  {
    hide Execute, MigrationEngine, FileFits;
    var x := Execute(e, text, [], conn, db, false);
    if pc.Altering? {
      DdlCallDoes(e, u.plan, u.benign, pc.v, conn, db, false, db);
      hide DoneParts, Stop;
    } else {
      var stmt := text[0];
      assert text == [stmt];
      CallDoes(e, u.plan, u.benign, stmt, conn, db, false);
      hide ConnFits, Did, DidNot, AfterAnswer;
      if x.response.fault.Some? {
        assert x.db == db by { DidNotKeeps(u.plan, stmt, conn, db, x.conn, x.db, u.benign(x.response.fault.value)); }
        FailureFits(u, pc, stmt, conn, db, x.conn, x.response);
      } else if pc.Committing? {
        CommitSucceeds(u, pc, conn, db, x.conn, x.db, x.response);
      } else if pc.Creating? {
        CreationFits(u, pc, conn, db, x.conn, x.db, x.response);
      } else {
        SuccessFits(u, pc, stmt, conn, db, x.conn, x.db, x.response);
      }
    }
  }

  lemma DidNotKeeps<L>(plan: Plan, stmt: Sql, conn: Conn<L, Schema>, db: Schema, conn': Conn<L, Schema>, db': Schema,
                       ignored: bool)
    requires DidNot(plan, stmt, conn, db, conn', db', ignored)
    ensures db' == db
  {
  }

  lemma LedgerFits(u: Setup, d: Schema)
    requires FileFits(u, d)
    ensures FileFits(u, d.(ledger := true))
  {
    forall v: nat, part: nat ensures d.applied[(v, part)] == Expected(u, d.marks, v, part) {
    }
  }
}
