/** Transactions as blocks of the log: what reaches the file, and what stands inside a block. */
module Blocks {
  import opened Prelude
  import opened Engine
  import opened Broker
  import opened BrokerInvariants
  import opened Serial

  /** The log sorted into what took effect and what the open transaction has done so far.
      Statements of transactions that were rolled back or dropped are in neither. */
  datatype Sorted<C, L, D> = Sorted(done: seq<Event<C, L, D>>, running: seq<Event<C, L, D>>)

  function Sort<C, L, D>(log: seq<Event<C, L, D>>): Sorted<C, L, D> {
    if log == [] then Sorted([], [])
    else
      var s, ev := Sort(log[..|log| - 1]), log[|log| - 1];
      match ev
      case Stepped(_, step) =>
        (match step.ran.end
         case KeepOpen => Sorted(s.done, s.running + [ev])
         case Publish => Sorted(s.done + (s.running + [ev]), [])
         case Discard => Sorted(s.done, []))
      case Left(id) => if s.running != [] && s.running[0].id == id then Sorted(s.done, []) else s
      case _ => s
  }

  /** The events' effect on a database with no transactions at all: one statement after another. */
  function Effect<C, L, D>(e: Engine<C, L, D>, d: D, events: seq<Event<C, L, D>>): D {
    if events == [] then d
    else
      var before, ev := Effect(e, d, events[..|events| - 1]), events[|events| - 1];
      if ev.Stepped? then e.run(ev.step.text, ev.step.binds, ev.step.local, before, ev.step.inTx).view else before
  }

  lemma {:induction false} EffectAppend<C, L, D>(e: Engine<C, L, D>, d: D, a: seq<Event<C, L, D>>,
                                                 b: seq<Event<C, L, D>>)
    ensures Effect(e, d, a + b) == Effect(e, Effect(e, d, a), b)
    decreases |b|
  {
    if b == [] {
      NoSuffix(a);
    } else {
      EffectAppend(e, d, a, b[..|b| - 1]);
      assert (a + b)[..|a + b| - 1] == a + b[..|b| - 1];
    }
  }

  lemma EffectOne<C, L, D>(e: Engine<C, L, D>, d: D, ev: Event<C, L, D>)
    requires ev.Stepped?
    ensures Effect(e, d, [ev]) == e.run(ev.step.text, ev.step.binds, ev.step.local, d, ev.step.inTx).view
  {
    assert [ev][..0] == [];
  }

  /** The sorted log describes the state of the sequential database. */
  ghost predicate Describes<C, L, D>(e: Engine<C, L, D>, d0: D, s: Serial<L, D>, sorted: Sorted<C, L, D>) {
    && s.db == Effect(e, d0, sorted.done)
    && (s.open.None? <==> sorted.running == [])
    && (s.open.Some? ==>
        && s.open.value.1 == Effect(e, s.db, sorted.running)
        && (forall i | 0 <= i < |sorted.running| ::
              sorted.running[i].Stepped? && sorted.running[i].id == s.open.value.0))
  }

  lemma DescribesNext<C, L, D>(e: Engine<C, L, D>, d0: D, s: Serial<L, D>, log: seq<Event<C, L, D>>, ev: Event<C, L, D>)
    requires Describes(e, d0, s, Sort(log)) && Accepts(e, s, ev)
    ensures Describes(e, d0, Next(e, s, ev), Sort(log + [ev]))
  {
    assert (log + [ev])[..|log + [ev]| - 1] == log;
    if ev.Stepped? {
      hide Sort, Effect;
      StatementDescribed(e, d0, s, Sort(log), ev);
      SortOne(log, ev);
    } else {
      hide Effect;
      NoEvents(e, s.db);
    }
  }

  /** One more statement: the working copy, and the file if this statement publishes. */
  lemma StatementDescribed<C, L, D>(e: Engine<C, L, D>, d0: D, s: Serial<L, D>, sorted: Sorted<C, L, D>,
                                    ev: Event<C, L, D>)
    requires Describes(e, d0, s, sorted) && Accepts(e, s, ev) && ev.Stepped?
    ensures Describes(e, d0, Next(e, s, ev),
                      match ev.step.ran.end
                      case KeepOpen => Sorted(sorted.done, sorted.running + [ev])
                      case Publish => Sorted(sorted.done + (sorted.running + [ev]), [])
                      case Discard => Sorted(sorted.done, []))
  {
    hide Effect;
    NoEvents(e, s.db);
    EffectAppend(e, s.db, sorted.running, [ev]);
    EffectOne(e, s.View(), ev);
    EffectAppend(e, d0, sorted.done, sorted.running + [ev]);
  }

  lemma NoEvents<C, L, D>(e: Engine<C, L, D>, d: D)
    ensures Effect(e, d, []) == d
  {
  }

  lemma SortOne<C, L, D>(log: seq<Event<C, L, D>>, ev: Event<C, L, D>)
    requires ev.Stepped?
    ensures var s := Sort(log);
            Sort(log + [ev]) == match ev.step.ran.end
                                case KeepOpen => Sorted(s.done, s.running + [ev])
                                case Publish => Sorted(s.done + (s.running + [ev]), [])
                                case Discard => Sorted(s.done, [])
  {
    assert (log + [ev])[..|log + [ev]| - 1] == log;
  }

  lemma {:induction false} LegalLogIsDescribed<C, L, D>(e: Engine<C, L, D>, d0: D, log: seq<Event<C, L, D>>)
    requires Legal(e, Fresh(d0), log)
    ensures Describes(e, d0, Replay(e, Fresh(d0), log), Sort(log))
    decreases |log|
  {
    if log != [] {
      var before, ev := log[..|log| - 1], log[|log| - 1];
      assert log == before + [ev];
      ReplayAppend(e, Fresh(d0), before, [ev]);
      LegalLogIsDescribed(e, d0, before);
      var s := Replay(e, Fresh(d0), before);
      ReplayOne(e, s, ev);
      DescribesNext(e, d0, s, before, ev);
    }
  }

  /** The file holds exactly the autocommit statements and the committed transactions, applied one
      after another in the order of the log; the holder's working copy adds its own statements. */
  lemma Serialisable<C, L, D>(e: Engine<C, L, D>, d0: D, jobs: seq<Job<C>>)
    requires FreshOpens({}, jobs)
    ensures var w := RunJobs(e, Start(d0), jobs);
            var sorted := Sort(w.log);
            && w.db == Effect(e, d0, sorted.done)
            && (w.holder.None? ==> sorted.running == [])
            && (w.holder.Some? ==>
                && w.holder.value in w.sessions && w.sessions[w.holder.value].tx
                    == Some(Effect(e, w.db, sorted.running))
                && forall i | 0 <= i < |sorted.running| :: sorted.running[i].id == w.holder.value)
  {
    BrokerIsSequential(e, d0, jobs);
    var w := RunJobs(e, Start(d0), jobs);
    hide RunJobs;
    LegalLogIsDescribed(e, d0, w.log);
  }

  // ---------- nothing lands inside a transaction ----------

  predicate LeavesOpen<C, L, D>(ev: Event<C, L, D>, id: Session) {
    ev.Stepped? && ev.id == id && ev.step.ran.end == KeepOpen
  }

  predicate EndsTransaction<C, L, D>(ev: Event<C, L, D>, id: Session) {
    ev.id == id && (ev.Left? || (ev.Stepped? && ev.step.ran.end != KeepOpen))
  }

  /** As long as the owner does not end its transaction it stays the owner. */
  lemma {:induction false} OwnerStays<C, L, D>(e: Engine<C, L, D>, s: Serial<L, D>, id: Session,
                                               log: seq<Event<C, L, D>>)
    requires Legal(e, s, log) && s.open.Some? && s.open.value.0 == id
    requires forall i | 0 <= i < |log| :: !EndsTransaction(log[i], id)
    ensures var s' := Replay(e, s, log); s'.open.Some? && s'.open.value.0 == id
    decreases |log|
  {
    if log != [] {
      assert !EndsTransaction(log[0], id);
      OwnerStays(e, Next(e, s, log[0]), id, log[1..]);
    }
  }

  /** Between a statement that leaves a transaction open and the end of that transaction, the next
      event is still one the owner's transaction admits. */
  lemma StillOwned<C, L, D>(e: Engine<C, L, D>, s: Serial<L, D>, log: seq<Event<C, L, D>>, i: nat, j: nat)
    returns (s': Serial<L, D>)
    requires Legal(e, s, log) && i < j < |log|
    requires log[i].Stepped? && LeavesOpen(log[i], log[i].id)
    requires forall k | i < k < j :: !EndsTransaction(log[k], log[i].id)
    ensures s'.open.Some? && s'.open.value.0 == log[i].id && Accepts(e, s', log[j])
  {
    hide Replay;
    var head, mid, tail := log[..i], log[i + 1..j], log[j..];
    assert log == (head + [log[i]]) + (mid + tail);
    ReplayAppend(e, s, head + [log[i]], mid + tail);
    ReplayAppend(e, s, head, [log[i]]);
    var s1 := Replay(e, s, head);
    ReplayOne(e, s1, log[i]);
    var s2 := Next(e, s1, log[i]);
    ReplayAppend(e, s2, mid, tail);
    assert forall k | 0 <= k < |mid| :: mid[k] == log[i + 1 + k];
    OwnerStays(e, s2, log[i].id, mid);
    s' := Replay(e, s2, mid);
    assert tail[0] == log[j];
  }

  lemma NothingInBetween<C, L, D>(e: Engine<C, L, D>, s: Serial<L, D>, log: seq<Event<C, L, D>>, i: nat, j: nat)
    requires Legal(e, s, log) && i < j < |log|
    requires log[i].Stepped? && LeavesOpen(log[i], log[i].id)
    requires (log[j].Stepped? || log[j].Inspected?) && log[j].id != log[i].id
    ensures exists k | i < k < j :: EndsTransaction(log[k], log[i].id)
  {
    if forall k | i < k < j :: !EndsTransaction(log[k], log[i].id) {
      var _ := StillOwned(e, s, log, i, j);
    }
  }

  /** In every run: once a statement leaves its session inside a transaction, no statement and no
      compilation of any other session happens before that transaction has ended. */
  lemma NothingLandsInside<C, L, D>(e: Engine<C, L, D>, d0: D, jobs: seq<Job<C>>, i: nat, j: nat)
    requires FreshOpens({}, jobs)
    requires var log := RunJobs(e, Start(d0), jobs).log;
             && i < j < |log|
             && log[i].Stepped? && LeavesOpen(log[i], log[i].id)
             && (log[j].Stepped? || log[j].Inspected?) && log[j].id != log[i].id
    ensures var log := RunJobs(e, Start(d0), jobs).log;
            exists k | i < k < j :: EndsTransaction(log[k], log[i].id)
  {
    BrokerIsSequential(e, d0, jobs);
    NothingInBetween(e, Fresh(d0), RunJobs(e, Start(d0), jobs).log, i, j);
  }
}
