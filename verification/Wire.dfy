/** One Exec over the wire: the request's frame, the worker, the response's frame, and what the size
    bound on either frame does to it. */
module Wire {
  import opened Prelude
  import opened Engine
  import opened Framing
  import opened Cursor
  import opened CursorRuns
  import opened Broker
  import opened BrokerInvariants
  import opened Mirror
  import S = Script
  import B = Base64

  /** What one Exec comes to: the reply its statement is given, the cache of the connection, and the
      worker. */
  datatype Exchanged<C, L, D> = Exchanged(reply: Reply, cache: Cache, w: W<C, L, D>)

  /** What the shim makes of an answer, or of a transport that failed. */
  function Told<C, L, D>(c: Cache, t: Transport, w: W<C, L, D>): Exchanged<C, L, D> {
    var (c', reply) := Shown(c, t);
    Exchanged(reply, c', w)
  }

  lemma AnswerIsLast<C, L, D>(e: Engine<C, L, D>, w: W<C, L, D>, p: Pending<C>, held: bool)
    ensures var sent := Dispatch(e, w, p, held).sent; sent != [] && sent[|sent| - 1].message.Replied?
  {
    hide S.Execute, S.Prepared, Refusals;
  }

  /** The worker's answer to a request it dispatches. */
  function AnswerTo<C, L, D>(e: Engine<C, L, D>, w: W<C, L, D>, p: Pending<C>): Response {
    AnswerIsLast(e, w, p, w.holder == Some(p.id));
    var sent := Dispatch(e, w, p, w.holder == Some(p.id)).sent;
    sent[|sent| - 1].message.response
  }

  /** The shim writes the request, the client thread reads it, the worker dispatches it, the client
      thread writes the answer and the shim reads it; `w` is the worker when the request's turn comes.
      A request too large for a frame is not sent. A client thread that cannot read a request or write
      an answer tears its session down. */
  function Exchange<C, L, D>(reqs: Codec<Request<C>>, resps: Codec<Response>, e: Engine<C, L, D>, c: Cache,
                             w: W<C, L, D>, id: Session, t: Ticket, req: Request<C>): Exchanged<C, L, D> {
    var out := Frame(reqs, req);
    if out.None? then Told(c, Lost, w)
    else
      match ReadFrame(reqs, out.value)
      case Err(_) => Told(c, Lost, DropSession(w, id))
      case Ok((arrived, _)) =>
        var p := Pending(id, arrived, t);
        var w', back := Dispatch(e, w, p, w.holder == Some(id)), Frame(resps, AnswerTo(e, w, p));
        if back.None? then Told(c, Lost, DropSession(w', id))
        else
          match ReadFrame(resps, back.value)
          case Err(_) => Told(c, Lost, w')
          case Ok((answer, _)) => Told(c, Got(answer), w')
  }

  // ---------- both frames fit, or one does not ----------

  lemma WholeFrame<M(!new)>(c: Codec<M>, m: M)
    requires Lawful(c) && Frame(c, m).Some?
    ensures ReadFrame(c, Frame(c, m).value) == Ok((m, []))
  {
    FrameReadsBack(c, m, []);
    NoSuffix(Frame(c, m).value);
  }

  /** If both frames fit, the client is told the worker's own answer. */
  lemma FramesFit<C(!new), L, D>(reqs: Codec<Request<C>>, resps: Codec<Response>, e: Engine<C, L, D>, c: Cache,
                                 w: W<C, L, D>, p: Pending<C>)
    requires Lawful(reqs) && Lawful(resps)
    requires Frame(reqs, p.req).Some? && Frame(resps, AnswerTo(e, w, p)).Some?
    ensures Exchange(reqs, resps, e, c, w, p.id, p.reply, p.req)
            == Told(c, Got(AnswerTo(e, w, p)), Dispatch(e, w, p, w.holder == Some(p.id)))
  {
    WholeFrame(reqs, p.req);
    WholeFrame(resps, AnswerTo(e, w, p));
    hide Frame, ReadFrame, Lawful, Dispatch, AnswerTo, Told;
  }

  /** A request too large for a frame fails with the code 1, and the worker never hears of it. */
  lemma OversizedRequest<C, L, D>(reqs: Codec<Request<C>>, resps: Codec<Response>, e: Engine<C, L, D>, c: Cache,
                                  w: W<C, L, D>, id: Session, t: Ticket, req: Request<C>)
    requires Frame(reqs, req).None?
    ensures Exchange(reqs, resps, e, c, w, id, t, req)
            == Exchanged(Refused(SQLITE_ERROR), c.(errcode := SQLITE_ERROR), w)
  {
  }

  /** What `Execute` answers when the session's turn has come. */
  function ExecAnswer<C, L, D>(e: Engine<C, L, D>, w: W<C, L, D>, id: Session, text: seq<C>, params: seq<Param>)
    : S.Executed<C, L, D>
    requires id in w.sessions
  {
    S.Execute(e, text, params, w.sessions[id], w.db, false)
  }

  lemma DispatchExecutes<C, L, D>(e: Engine<C, L, D>, w: W<C, L, D>, p: Pending<C>, held: bool)
    requires Core(w) && MayRun(w, p.id) && p.id in w.sessions && p.req.Exec?
    ensures var x, w' := ExecAnswer(e, w, p.id, p.req.sql, p.req.params), Dispatch(e, w, p, held);
            && AnswerTo(e, w, p) == x.response
            && w'.sessions == w.sessions[p.id := x.conn] && w'.db == x.db && w'.pending == w.pending
            && w'.log == w.log + [Inspected(p.id)] + EventsOf(p.id, x.steps)
            && (w'.holder.None? || w'.holder == Some(p.id))
  {
    NoOtherLock(w, p.id);
    DispatchKeepsCore(e, w, p, held);
    hide S.Execute, Core, EventsOf;
  }

  /** An answer too large for a frame: what its statements did to the file stays done, but the client
      is told of a failure with code 1 and its cache still shows the state before. The broker has torn
      the session down, and a transaction it was in is gone with it. */
  lemma OversizedAnswer<C(!new), L, D>(reqs: Codec<Request<C>>, resps: Codec<Response>, e: Engine<C, L, D>, c: Cache,
                                       w: W<C, L, D>, id: Session, t: Ticket, text: seq<C>, params: seq<Param>)
    requires Lawful(reqs) && Core(w) && MayRun(w, id) && id in w.sessions
    requires Frame(reqs, Exec(text, params)).Some?
    requires Frame(resps, ExecAnswer(e, w, id, text, params).response).None?
    ensures var x, ran := Exchange(reqs, resps, e, c, w, id, t, Exec(text, params)), ExecAnswer(e, w, id, text, params);
            && x.reply == Refused(SQLITE_ERROR) && x.cache == c.(errcode := SQLITE_ERROR)
            && x.w.db == ran.db && x.w.sessions == w.sessions - {id} && x.w.holder.None?
            && x.w.log == w.log + [Inspected(id)] + EventsOf(id, ran.steps) + [Left(id)]
  {
    var p := Pending(id, Exec(text, params), t);
    WholeFrame(reqs, p.req);
    DispatchExecutes(e, w, p, w.holder == Some(id));
    hide Frame, ReadFrame, Lawful, Dispatch, AnswerTo, ExecAnswer, Core, EventsOf;
    var w' := Dispatch(e, w, p, w.holder == Some(id));
    assert w'.sessions - {id} == w.sessions - {id};
  }

  // ---------- a blob's way over the wire and back ----------

  /** The parameters sent after binding a whole blob. */
  function Sending(s: Stmt, index: int, bytes: seq<Byte>): seq<Param> {
    BindBlob(s, index, Some(bytes), |bytes|).0.params
  }

  /** If the request fits a frame, the broker reads parameters that hand the engine the bytes bound;
      if it does not, the engine is handed nothing and the client is told code 1. */
  lemma BoundBlobArrives<C(!new), L, D>(reqs: Codec<Request<C>>, resps: Codec<Response>, e: Engine<C, L, D>, c: Cache,
                                        w: W<C, L, D>, id: Session, t: Ticket, text: seq<C>, s: Stmt, index: int,
                                        bytes: seq<Byte>)
    requires Lawful(reqs) && Sound(s) && !s.started && index > 0
    requires S.BindAll(e, text, Sending(s, index, bytes)).Ok?
    ensures var req := Exec(text, Sending(s, index, bytes));
            if Frame(reqs, req).Some? then
              && ReadFrame(reqs, Frame(reqs, req).value) == Ok((req, []))
              && HandedOver(S.BindAll(e, text, req.params).value, index, Stored(bytes))
            else Exchange(reqs, resps, e, c, w, id, t, req)
                 == Exchanged(Refused(SQLITE_ERROR), c.(errcode := SQLITE_ERROR), w)
  {
    var req := Exec(text, Sending(s, index, bytes));
    if Frame(reqs, req).Some? {
      WholeFrame(reqs, req);
      BindingHandsOver(e, text, s, index, bytes);
    } else {
      OversizedRequest(reqs, resps, e, c, w, id, t, req);
    }
  }

  /** The session's next statement is `text` alone, and answers with what is bound at `index`. */
  ghost predicate EchoReady<C, L(!new), D(!new)>(e: Engine<C, L, D>, text: seq<C>, index: int, conn: Conn<L, D>,
                                                 db: D) {
    && Echoes(e, text, index) && !S.HasNul(e, text)
    && e.compile(text, conn.local, conn.View(db)).Statement?
    && S.AtEnd(text, e.compile(text, conn.local, conn.View(db)).tail)
  }

  /** What reading the first column of a row must give for a blob that came back. */
  ghost predicate ReadsAs(s: Stmt, bytes: seq<Byte>, size: Text -> nat) {
    && ColumnBytes(s, 0, size) == |bytes|
    && ColumnBlob(s, 0) == (if bytes == [] then NullPointer else ToBytes(bytes))
    && (ColumnType(s, 0) == BLOB <==> bytes != [])
    && (ColumnType(s, 0) == NOTHING <==> bytes == [])
  }

  /** Bound, framed, sent, decoded, echoed by the engine, framed, sent back and decoded: a blob of any
      bytes is read as the bytes bound if and only if the request and the answer fit their frames.
      Otherwise the step fails with code 1, and the worker has either not heard of the request or
      dropped the session after serving it. An empty blob has become NULL. */
  lemma BlobSurvives<C(!new), L(!new), D(!new)>(
      reqs: Codec<Request<C>>, resps: Codec<Response>, e: Engine<C, L, D>, c: Cache, w: W<C, L, D>, id: Session,
      t: Ticket, text: seq<C>, s: Stmt, index: int, bytes: seq<Byte>, size: Text -> nat)
    requires Lawful(reqs) && Lawful(resps) && Core(w) && MayRun(w, id) && id in w.sessions
    requires Sound(s) && !s.started && index > 0 && EchoReady(e, text, index, w.sessions[id], w.db)
    requires S.BindAll(e, text, Sending(s, index, bytes)).Ok?
    ensures var req := Exec(text, Sending(s, index, bytes));
            var fits := Frame(reqs, req).Some? && Frame(resps, ExecAnswer(e, w, id, text, req.params).response).Some?;
            var x := Exchange(reqs, resps, e, c, w, id, t, req);
            var (s', code) := Step(BindBlob(s, index, Some(bytes), |bytes|).0, x.reply);
            && (code == ROW <==> fits) && (code == SQLITE_ERROR <==> !fits)
            && (fits ==> ReadsAs(s', bytes, size))
            && (Frame(reqs, req).None? ==> x.w == w)
            && (Frame(reqs, req).Some? && !fits ==> id !in x.w.sessions)
  {
    hide Frame, Lawful, Dispatch, AnswerTo, Core, Step, BindBlob, Sound, S.Execute, ReadFrame, Exchange, S.BindAll,
         Echoes;
    var bound := BindBlob(s, index, Some(bytes), |bytes|).0;
    var p := Pending(id, Exec(text, bound.params), t);
    DispatchExecutes(e, w, p, w.holder == Some(id));
    EchoIsRead(e, text, s, index, bytes, w.sessions[id], w.db, size);
    BindKeepsUnstarted(s, index, bytes);
    RefusedStep(bound);
    hide EchoReady;
    if Frame(reqs, p.req).None? {
      OversizedRequest(reqs, resps, e, c, w, id, t, p.req);
    } else if Frame(resps, AnswerTo(e, w, p)).None? {
      OversizedAnswer(reqs, resps, e, c, w, id, t, text, bound.params);
    } else {
      FramesFit(reqs, resps, e, c, w, p);
    }
  }

  lemma BindKeepsUnstarted(s: Stmt, index: int, bytes: seq<Byte>)
    requires !s.started && index > 0
    ensures !BindBlob(s, index, Some(bytes), |bytes|).0.started
  {
  }

  lemma RefusedStep(s: Stmt)
    requires !s.started
    ensures Step(s, Refused(SQLITE_ERROR)).1 == SQLITE_ERROR
  {
  }

  // ---------- how large is too large ----------

  /** The body of a request is at least as long as the text of any blob in it, as in JSON. */
  ghost predicate NoShorter<C(!new)>(reqs: Codec<Request<C>>) {
    forall sql: seq<C>, params: seq<Param>, k: nat {:trigger reqs.ser(Exec(sql, params)), params[k]} ::
      k < |params| && params[k].cell.BlobCell? && reqs.ser(Exec(sql, params)).Some? ==>
        |reqs.ser(Exec(sql, params)).value| >= |params[k].cell.v|
  }

  /** A frame of 16 MiB holds the text of at most 12 MiB. */
  const BLOB_LIMIT := 12 * 1024 * 1024

  /** With such bodies every blob of more than 12 MiB fails: it is accepted by the bind, and the step
      gives code 1 without the worker hearing of it. */
  lemma LargeBlobFails<C(!new), L, D>(reqs: Codec<Request<C>>, resps: Codec<Response>, e: Engine<C, L, D>, c: Cache,
                                      w: W<C, L, D>, id: Session, t: Ticket, text: seq<C>, s: Stmt, index: int,
                                      bytes: seq<Byte>)
    requires NoShorter(reqs) && |bytes| > BLOB_LIMIT && !s.started && index > 0
    ensures var (bound, code) := BindBlob(s, index, Some(bytes), |bytes|);
            var x := Exchange(reqs, resps, e, c, w, id, t, Exec(text, bound.params));
            code == SQLITE_OK && Step(bound, x.reply).1 == SQLITE_ERROR && x.w == w
  {
    var bound := BindBlob(s, index, Some(bytes), |bytes|).0;
    var cell := BlobCell(B.Encode(bytes));
    WholeBlobBound(s, index, bytes);
    var k := BoundCellIsThere(s.params, index, cell);
    B.EncodedLength(bytes);
    assert bound.params[k].cell == cell;
    OversizedRequest(reqs, resps, e, c, w, id, t, Exec(text, bound.params));
    BindKeepsUnstarted(s, index, bytes);
    RefusedStep(bound);
  }
}
