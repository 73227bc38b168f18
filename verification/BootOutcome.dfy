/** The outcome of every run of migrating processes. */
module BootOutcome {
  import opened Engine
  import opened Broker
  import opened BrokerInvariants
  import opened Migration
  import opened Boot
  import opened BootRuns
  import T = BootTheorems

  ghost predicate SomeFinished<L>(b: World<L>) {
    exists id :: id in b.procs && b.procs[id].pc == Finished
  }

  function Committed<L>(u: Setup, b: World<L>): seq<(Session, nat)> {
    Wins(u, b.calls, b.w.sent)
  }

  lemma RunFits<L(!new)>(e: Engine<Sql, L, Schema>, u: Setup, actions: seq<Action>)
    requires MigrationEngine(e, u.plan, u.benign) && Run(e, u, NewWorld(u.before), actions).Some?
    ensures WorldFits(u, Run(e, u, NewWorld(u.before), actions).value)
  {
    var b: World<L> := NewWorld(u.before);
    T.NewWorldFits<L>(u);
    T.RunKeeps(e, u, b, actions);
  }

  // ---------- what is committed ----------

  /** For any file, any number of processes and any interleaving, with failures, lost connections and
      lost answers: each version added was committed exactly once, by one process; its parts are in
      effect exactly as often as one run of its script makes them, up to the first blocked part; and
      nothing else was touched. Once any process has finished, every version is in the ledger. */
  lemma EachVersionOnce<L(!new)>(e: Engine<Sql, L, Schema>, u: Setup, actions: seq<Action>)
    requires MigrationEngine(e, u.plan, u.benign) && Run(e, u, NewWorld(u.before), actions).Some?
    ensures var b := Run(e, u, NewWorld(u.before), actions).value;
            && FileFits(u, b.w.db) && WinsFit(Committed(u, b), u.before.marks, b.w.db.marks)
            && (SomeFinished(b) ==> forall v: nat | 1 <= v <= |u.plan| :: v in b.w.db.marks)
  {
    RunFits(e, u, actions);
    hide Run, MigrationEngine, FileFits, WinsFit, Wins, SomeFinished, WorldFits;
    WorldOutcome(u, Run(e, u, NewWorld(u.before), actions).value);
  }

  lemma WorldOutcome<L>(u: Setup, b: World<L>)
    requires WorldFits(u, b)
    ensures FileFits(u, b.w.db) && WinsFit(Committed(u, b), u.before.marks, b.w.db.marks)
    ensures SomeFinished(b) ==> forall v: nat | 1 <= v <= |u.plan| :: v in b.w.db.marks
  {
    hide FileFits, WinsFit, Wins, Inv, QueueFits, HolderFits, HeardFits, ReturnsFit, TicketsFit, Answers, Stand;
    if SomeFinished(b) {
      var id :| id in b.procs && b.procs[id].pc == Finished;
      assert ProcStands(u, b, id);
    }
  }

  /** All parts of an added version are in effect exactly if those from the first blocked one on were
      before. If none was, each has taken effect once. A part run takes effect once more, unless it says
      IF NOT EXISTS of something that exists. */
  lemma PartsInEffect(u: Setup, d: Schema, v: nat)
    requires FileFits(u, d) && v in d.marks && v !in u.before.marks
    ensures (forall part: nat | part < Parts(u.plan, v) :: d.applied[(v, part)] > 0)
            <==> (forall part: nat | Stop(u.plan, u.before, v) <= part < Parts(u.plan, v) ::
                u.before.applied[(v, part)] > 0)
    ensures (forall part: nat | part < Parts(u.plan, v) :: u.before.applied[(v, part)] == 0)
            ==> forall part: nat | part < Parts(u.plan, v) :: d.applied[(v, part)] == 1
    ensures forall part: nat | part < Stop(u.plan, u.before, v) ::
              var was := u.before.applied[(v, part)];
              d.applied[(v, part)] == if KindOf(u.plan, v, part).Lenient? && was > 0 then was else was + 1
  {
    StopFromIs(u.plan, u.before, v, 0);
    hide StopFrom;
    forall part: nat ensures d.applied[(v, part)] == Expected(u, d.marks, v, part) {
    }
  }

  /** With the driver's own plan every version in the ledger has all its parts in effect, four of the
      first and one of each other, whatever of it was in effect before. */
  lemma DriverPlanIsComplete(u: Setup, d: Schema, v: nat)
    requires u.plan == DRIVER_PLAN && FileFits(u, d) && v in d.marks && v !in u.before.marks
    ensures 1 <= v <= 3 && Parts(u.plan, v) == if v == 1 then 4 else 1
    ensures forall part: nat | part < Parts(u.plan, v) :: d.applied[(v, part)] > 0
  {
    StopFromIs(u.plan, u.before, v, 0);
    PartsInEffect(u, d, v);
    hide StopFrom;
  }

  // ---------- what the calls return ----------

  /** The process's COMMIT has succeeded and the process has not heard so: the answer is on its way,
      or it was lost with the connection. */
  predicate UnheardCommit<L>(b: World<L>, id: Session) {
    && id in b.procs && b.procs[id].pc.Committing?
    && b.procs[id].heard < |AnswersTo(b, id)| && AnswersTo(b, id)[b.procs[id].heard].fault.None?
  }

  function SetOf<T(==)>(s: seq<T>): set<T> {
    set x | x in s
  }

  lemma {:induction false} DistinctCount<T>(s: seq<T>)
    requires forall i, j | 0 <= i < j < |s| :: s[i] != s[j]
    ensures |SetOf(s)| == |s|
  {
    if s != [] {
      var front, last := s[..|s| - 1], s[|s| - 1];
      DistinctCount(front);
      assert last !in front;
      assert SetOf(s) == SetOf(front) + {last};
    }
  }

  /** A list without repetition inside another is as long exactly if it contains the other. */
  lemma InsideCount<T>(a: seq<T>, b: seq<T>)
    requires forall i, j | 0 <= i < j < |a| :: a[i] != a[j]
    requires forall i, j | 0 <= i < j < |b| :: b[i] != b[j]
    requires forall x | x in a :: x in b
    ensures |a| <= |b| && (|a| == |b| <==> forall x | x in b :: x in a)
  {
    DistinctCount(a);
    DistinctCount(b);
    assert SetOf(a) <= SetOf(b);
    SubsetCount(SetOf(a), SetOf(b));
    if SetOf(a) == SetOf(b) {
      forall x | x in b ensures x in a {
        assert x in SetOf(b);
      }
    }
    if forall x | x in b :: x in a {
      assert SetOf(a) == SetOf(b);
    }
  }

  lemma SubsetCount<T>(a: set<T>, b: set<T>)
    requires a <= b
    ensures |a| <= |b| && (|a| == |b| <==> a == b)
  {
    assert b == a + (b - a);
    assert |b| == |a| + |b - a|;
  }

  function VersionsOf(wins: seq<(Session, nat)>): (r: seq<nat>)
    ensures |r| == |wins| && forall i | 0 <= i < |wins| :: r[i] == wins[i].1
  {
    seq(|wins|, i requires 0 <= i < |wins| => wins[i].1)
  }

  function UpTo(n: nat): (r: seq<nat>)
    ensures |r| == n && forall i | 0 <= i < n :: r[i] == i + 1
  {
    seq(n, i => i + 1)
  }

  /** As many commits as versions, if the versions are all there and none was before. */
  lemma CommitsCount(plan: Plan, wins: seq<(Session, nat)>, before: set<nat>, marks: set<nat>)
    requires WinsFit(wins, before, marks) && forall v | v in marks && v !in before :: 1 <= v <= |plan|
    requires forall v: nat | 1 <= v <= |plan| :: v in marks && v !in before
    ensures |wins| == |plan|
  {
    var vs, all := VersionsOf(wins), UpTo(|plan|);
    forall v | v in vs ensures v in all {
      var i :| 0 <= i < |vs| && vs[i] == v;
      assert wins[i].1 == v;
      assert all[v - 1] == v;
    }
    forall v | v in all ensures v in vs {
      var i :| 0 <= i < |all| && all[i] == v;
      assert v in marks && v !in before;
      var k :| 0 <= k < |wins| && wins[k].1 == v;
      assert vs[k] == v;
    }
    InsideCount(vs, all);
  }

  /** Every return was of a commit, no two of the same, and all commits were returned exactly if
      none is unheard. */
  lemma ReturnsAndCommits<L>(u: Setup, b: World<L>)
    requires WorldFits(u, b)
    ensures forall i | 0 <= i < |b.returned| :: b.returned[i] in Committed(u, b)
    ensures forall i, j | 0 <= i < j < |b.returned| :: b.returned[i] != b.returned[j]
    ensures |b.returned| <= |Committed(u, b)|
    ensures |b.returned| == |Committed(u, b)| <==> forall id :: !UnheardCommit(b, id)
  {
    hide Inv, Answers, Stand, Wins, EarlierDone, TicketsFit, QueueFits, HolderFits, FileFits;
    var wins := Committed(u, b);
    forall x | x in b.returned ensures x in wins {
    }
    WinsDistinct(wins, u.before.marks, b.w.db.marks);
    InsideCount(b.returned, wins);
    forall x | x in wins ensures x in b.returned || UnheardCommit(b, x.0) {
      if Unheard(u, BooksOf(b), b.w.sent, x.0, x.1) {
        assert ProcStands(u, b, x.0);
      }
    }
    if id :| UnheardCommit(b, id) {
      assert ProcStands(u, b, id);
      T.AnswerIsWin(u, b.calls, b.w.sent, id, b.procs[id].heard);
      NotReturnedYet(u, b, id);
    }
  }

  lemma WinsDistinct(wins: seq<(Session, nat)>, before: set<nat>, marks: set<nat>)
    requires WinsFit(wins, before, marks)
    ensures forall i, j | 0 <= i < j < |wins| :: wins[i] != wins[j]
  {
    forall i, j | 0 <= i < j < |wins| ensures wins[i] != wins[j] {
      assert wins[i].1 != wins[j].1;
    }
  }

  lemma NotReturnedYet<L>(u: Setup, b: World<L>, id: Session)
    requires ReturnsFit(u, b) && id in b.procs && b.procs[id].pc.Committing?
    ensures (id, b.procs[id].pc.v) !in b.returned
  {
    hide Wins;
  }

  /** From a file with none of the versions, once one process has finished: the `migrate` calls have
      together returned at most the number of versions, and exactly that number if and only if no
      process has a successful COMMIT it has not heard of. */
  lemma ReturnsSumToVersions<L(!new)>(e: Engine<Sql, L, Schema>, u: Setup, actions: seq<Action>)
    requires MigrationEngine(e, u.plan, u.benign) && Run(e, u, NewWorld(u.before), actions).Some?
    requires forall v | v in u.before.marks :: !(1 <= v <= |u.plan|)
    requires SomeFinished(Run(e, u, NewWorld(u.before), actions).value)
    ensures var b := Run(e, u, NewWorld(u.before), actions).value;
            && |Committed(u, b)| == |u.plan| && |b.returned| <= |u.plan|
            && (|b.returned| == |u.plan| <==> forall id :: !UnheardCommit(b, id))
  {
    var b := Run(e, u, NewWorld(u.before), actions).value;
    EachVersionOnce(e, u, actions);
    RunFits(e, u, actions);
    hide Run, MigrationEngine, SomeFinished;
    ReturnsAndCommits(u, b);
    hide WorldFits, Wins;
    CommitsCount(u.plan, Committed(u, b), u.before.marks, b.w.db.marks);
  }

  /** If every process finishes, the returns add up to the number of versions. */
  lemma AllFinishedReturns<L(!new)>(e: Engine<Sql, L, Schema>, u: Setup, actions: seq<Action>)
    requires MigrationEngine(e, u.plan, u.benign) && Run(e, u, NewWorld(u.before), actions).Some?
    requires forall v | v in u.before.marks :: !(1 <= v <= |u.plan|)
    requires var b := Run(e, u, NewWorld(u.before), actions).value;
             b.procs != map[] && forall id | id in b.procs :: b.procs[id].pc == Finished
    ensures |Run(e, u, NewWorld(u.before), actions).value.returned| == |u.plan|
  {
    var b := Run(e, u, NewWorld(u.before), actions).value;
    var id :| id in b.procs;
    assert SomeFinished(b);
    hide Run, MigrationEngine;
    ReturnsSumToVersions(e, u, actions);
  }
}
