/** The calls one process makes, as its source reads: the requests of `boot` and `migrate` in their
    order, what makes it skip a version, and what it does after each failure. */
module BootCalls {
  import opened Prelude
  import opened Engine
  import opened Broker
  import opened Migration
  import opened Boot

  /** One request of a process, and the answer it goes on with. */
  datatype Exchange = Exchange(req: Request<Sql>, answer: Response)

  /** From `pc` on the process makes exactly these requests, hearing these answers, and then stands at
      the last state. */
  ghost predicate Makes(u: Setup, pc: PC, exchanges: seq<Exchange>, pc': PC)
    decreases |exchanges|
  {
    if exchanges == [] then pc' == pc
    else
      && Wanted(u.plan, pc) == Some(exchanges[0].req)
      && Makes(u, AfterAnswer(u.plan, pc, exchanges[0].answer, u.benign), exchanges[1..], pc')
  }

  /** A call with one statement. */
  function Call(stmt: Sql, answer: Response): Exchange {
    Exchange(Exec([stmt], []), answer)
  }

  predicate Succeeded(r: Response) { r.fault.None? }

  function Next(plan: Plan, v: nat): PC {
    if v < |plan| then Starting(v + 1) else Finished
  }

  /** The script of a version: all its parts in order. */
  function Script(plan: Plan, v: nat): (r: seq<Sql>)
    ensures |r| == Parts(plan, v) && forall i | 0 <= i < |r| :: r[i] == Ddl(v, i)
  {
    seq(Parts(plan, v), i requires 0 <= i < Parts(plan, v) => Ddl(v, i))
  }

  lemma {:induction false} ScriptFrom(plan: Plan, v: nat, part: nat)
    requires part <= Parts(plan, v)
    ensures DdlFrom(plan, v, part) == Script(plan, v)[part..]
    decreases Parts(plan, v) - part
  {
    if part < Parts(plan, v) {
      ScriptFrom(plan, v, part + 1);
      hide DdlFrom;
      assert Script(plan, v)[part..] == [Script(plan, v)[part]] + Script(plan, v)[part + 1..];
    }
  }

  lemma One(u: Setup, pc: PC, x: Exchange)
    requires Wanted(u.plan, pc) == Some(x.req)
    ensures Makes(u, pc, [x], AfterAnswer(u.plan, pc, x.answer, u.benign))
  {
    assert [x][1..] == [];
    assert Makes(u, AfterAnswer(u.plan, pc, x.answer, u.benign), [], AfterAnswer(u.plan, pc, x.answer, u.benign));
  }

  lemma {:induction false} Join(u: Setup, pc: PC, a: seq<Exchange>, mid: PC, b: seq<Exchange>, pc': PC)
    requires Makes(u, pc, a, mid) && Makes(u, mid, b, pc')
    ensures Makes(u, pc, a + b, pc')
    decreases |a|
  {
    hide Wanted, AfterAnswer;
    if a == [] {
      NoPrefix(b);
    } else {
      AppendParts(a, b);
      Join(u, AfterAnswer(u.plan, pc, a[0].answer, u.benign), a[1..], mid, b, pc');
    }
  }

  // ---------- the way through ----------

  /** Booting begins with the ledger; if that fails, nothing else is sent. */
  lemma Creates(u: Setup, r: Response)
    ensures Makes(u, Creating, [Call(CreateLedger, r)],
                  if !Succeeded(r) then GaveUp else if u.plan == [] then Finished else Starting(1))
  {
    One(u, Creating, Call(CreateLedger, r));
  }

  /** Up to the count, every call having succeeded: BEGIN, then the query, which is prepared and run. */
  lemma Counts(u: Setup, v: nat, a: Response, b: Response)
    requires Succeeded(a) && Succeeded(b)
    ensures Makes(u, Starting(v), [Call(Begin, a), Exchange(Prepare([CountVersion(v)]), b)], Counting(v))
  {
    One(u, Starting(v), Call(Begin, a));
    One(u, Asking(v), Exchange(Prepare([CountVersion(v)]), b));
    Join(u, Starting(v), [Call(Begin, a)], Asking(v), [Exchange(Prepare([CountVersion(v)]), b)], Counting(v));
  }

  /** A version that is in the ledger already: BEGIN, the count, which answers 1, and COMMIT. */
  lemma SkipsVersion(u: Setup, v: nat, a: Response, b: Response, c: Response, d: Response)
    requires Succeeded(a) && Succeeded(b) && Succeeded(c) && Succeeded(d)
    requires c.rows != [] && c.rows[0] != [] && c.rows[0][0] == IntCell(1)
    ensures Makes(u, Starting(v),
                  [Call(Begin, a), Exchange(Prepare([CountVersion(v)]), b)]
                  + [Call(CountVersion(v), c)] + [Call(Commit, d)], Next(u.plan, v))
  {
    var first := [Call(Begin, a), Exchange(Prepare([CountVersion(v)]), b)];
    Counts(u, v, a, b);
    One(u, Counting(v), Call(CountVersion(v), c));
    Join(u, Starting(v), first, Counting(v), [Call(CountVersion(v), c)], Skipping(v));
    One(u, Skipping(v), Call(Commit, d));
    Join(u, Starting(v), first + [Call(CountVersion(v), c)], Skipping(v), [Call(Commit, d)], Next(u.plan, v));
  }

  /** A version that is not: BEGIN, the count, which does not answer 1, the whole script in one call, which
      may fail with an error to ignore, the mark, and COMMIT. */
  lemma AppliesVersion(u: Setup, v: nat, a: Response, b: Response, c: Response, d: Response, m: Response, x: Response)
    requires Succeeded(a) && Succeeded(b) && Succeeded(c) && Succeeded(m) && Succeeded(x)
    requires c.rows == [] || c.rows[0] == [] || c.rows[0][0] != IntCell(1)
    requires Succeeded(d) || u.benign(d.fault.value)
    ensures Makes(u, Starting(v),
                  [Call(Begin, a), Exchange(Prepare([CountVersion(v)]), b)] + [Call(CountVersion(v), c)]
                  + [Exchange(Exec(Script(u.plan, v), []), d)] + [Call(Mark(v), m)] + [Call(Commit, x)],
                  Next(u.plan, v))
  {
    var first := [Call(Begin, a), Exchange(Prepare([CountVersion(v)]), b)];
    var ddl := Exchange(Exec(Script(u.plan, v), []), d);
    ScriptFrom(u.plan, v, 0);
    assert Script(u.plan, v)[0..] == Script(u.plan, v);
    Counts(u, v, a, b);
    One(u, Counting(v), Call(CountVersion(v), c));
    One(u, Altering(v), ddl);
    One(u, Marking(v), Call(Mark(v), m));
    One(u, Committing(v), Call(Commit, x));
    hide Makes, DdlFrom;
    Join(u, Starting(v), first, Counting(v), [Call(CountVersion(v), c)], Altering(v));
    Join(u, Starting(v), first + [Call(CountVersion(v), c)], Altering(v), [ddl], Marking(v));
    Join(u, Starting(v), first + [Call(CountVersion(v), c)] + [ddl], Marking(v), [Call(Mark(v), m)], Committing(v));
    Join(u, Starting(v), first + [Call(CountVersion(v), c)] + [ddl] + [Call(Mark(v), m)], Committing(v),
         [Call(Commit, x)], Next(u.plan, v));
  }

  // ---------- failures ----------

  /** A BEGIN or a COMMIT that fails ends the boot with nothing more sent. */
  lemma EndsAtOnce(u: Setup, v: nat, r: Response)
    requires !Succeeded(r)
    ensures Makes(u, Starting(v), [Call(Begin, r)], GaveUp)
    ensures Makes(u, Skipping(v), [Call(Commit, r)], GaveUp)
    ensures Makes(u, Committing(v), [Call(Commit, r)], GaveUp)
    ensures Wanted(u.plan, GaveUp).None? && Wanted(u.plan, Finished).None?
  {
    One(u, Starting(v), Call(Begin, r));
    One(u, Skipping(v), Call(Commit, r));
    One(u, Committing(v), Call(Commit, r));
  }

  /** Any other failure inside the transaction, unless it is one to ignore in the script, is followed by
      ROLLBACK, whatever that answers, and then by nothing. */
  lemma UndoesFirst(u: Setup, v: nat, r: Response, z: Response)
    requires !Succeeded(r)
    ensures Makes(u, Asking(v), [Exchange(Prepare([CountVersion(v)]), r)] + [Call(Rollback, z)], GaveUp)
    ensures Makes(u, Counting(v), [Call(CountVersion(v), r)] + [Call(Rollback, z)], GaveUp)
    ensures Makes(u, Marking(v), [Call(Mark(v), r)] + [Call(Rollback, z)], GaveUp)
    ensures !u.benign(r.fault.value) ==>
              Makes(u, Altering(v), [Exchange(Exec(Script(u.plan, v), []), r)] + [Call(Rollback, z)], GaveUp)
  {
    ScriptFrom(u.plan, v, 0);
    assert Script(u.plan, v)[0..] == Script(u.plan, v);
    One(u, Undoing, Call(Rollback, z));
    FailsInto(u, Asking(v), Exchange(Prepare([CountVersion(v)]), r), z);
    FailsInto(u, Counting(v), Call(CountVersion(v), r), z);
    FailsInto(u, Marking(v), Call(Mark(v), r), z);
    if !u.benign(r.fault.value) {
      FailsInto(u, Altering(v), Exchange(Exec(Script(u.plan, v), []), r), z);
    }
    hide Makes, DdlFrom;
  }

  lemma FailsInto(u: Setup, pc: PC, x: Exchange, z: Response)
    requires Wanted(u.plan, pc) == Some(x.req) && AfterAnswer(u.plan, pc, x.answer, u.benign) == Undoing
    ensures Makes(u, pc, [x] + [Call(Rollback, z)], GaveUp)
  {
    One(u, pc, x);
    One(u, Undoing, Call(Rollback, z));
    Join(u, pc, [x], Undoing, [Call(Rollback, z)], GaveUp);
  }
}
