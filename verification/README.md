# A verified model of sqlite-broker

sqlite-broker lets many processes share one SQLite file. A preload library, the shim, replaces
`sqlite3_open` and sends each statement over TCP to one broker process. The broker gives every
client session its own SQLite connection and runs all statements on one worker thread. While one
session is inside a transaction, the statements of all other sessions wait in a queue.

This project models that system in Dafny and proves what it promises: transactions are isolated,
nobody is answered `SQLITE_BUSY`, nobody waits for ever behind a session that can still move, each
request is answered once and with the rows of its own statements, bytes survive the wire exactly if
they fit its frames, a client is told the engine's own error code, and the load driver's audit
passes after every run but notices each write that was lost. Run `dafny verify dfyconfig.toml` to
check it.

## How the model is built

SQLite is a parameter. `Engine` is a record of arbitrary functions (`compile`, `accepts`, `run`,
`counters`) over an arbitrary SQL alphabet, connection state and database, so the broker theorems
hold for every engine. Three facts about SQLite are built into the shape of the record: a
connection in autocommit has no working copy, compiling changes nothing, and closing a connection
discards its working copy. Where a theorem needs more of SQLite it names a law (`SingleStatement`,
`NeverBusyAlone`, `MigrationEngine`, `HammerEngine`, `Reliable`, `Echoes`), and where it needs more of
the JSON codec, `Lawful` and `NoShorter`. Every law comes with an engine or a codec that satisfies it,
in `BootExample`, `HammerReliable` and `Witness`.

| files | what they hold |
|---|---|
| `Prelude` | options, results, sequence facts |
| `Base64`, `Framing`, `Scanner` | the codecs of the protocol and the shim's keyword scanner |
| `Engine`, `Script`, `ScriptSplit`, `Preparing` | SQLite as a parameter, the script loop, `Exec` and `Prepare`, scripts cut into pieces, and the statement a Prepare makes in the shim |
| `Broker` | the worker, as functions on its state and as the class `Worker` with the queue loops |
| `BrokerInvariants`, `Busy`, `Serial`, `Blocks`, `Receipts`, `Fairness` | the holder invariant and conservation of requests, no answer with the code busy, the refinement to one sequential database, transactions as blocks, the segment of the log behind each answer, order and bounded waiting |
| `Discipline`, `Clients`, `Liveness`, `Composed` | sessions with one request outstanding, the transition system of all client threads with the channel and the worker, what follows for it, and the broker's theorems carried over to it |
| `Migration`, `Boot`, `BootSteps`, `BootRuns`, `BootTheorems`, `BootOutcome` | the statements of a migration and what each call does, processes driven by the answers they hear, the invariant of the worker and of the processes, and what every run comes to |
| `BootCalls` | the calls of one process as its source reads, through success and after each failure |
| `BootSystem` | the same processes over the whole system of clients, channel and worker |
| `BootExample` | an engine that keeps the promises, and a run with both shortfalls of `migrate` |
| `Names`, `Hammer`, `HammerAudit`, `HammerBroker`, `HammerOrder`, `HammerReliable`, `HammerSystem` | the load driver: one worker's loop, the audit over the tables, both over the broker with workers that boot meanwhile, workers that wait for each answer, an engine that fails only for a reason, and all of it over the whole system |
| `HammerRows`, `AuditDamage` | the agreement of the driver's two tables, and what the audit detects |
| `Handles`, `HandleAnswers`, `ShimProcess` | connection and statement handles of the shim, as a value, what their calls answer, and as objects on the heap |
| `Cursor`, `CursorRuns`, `ProxyStatement` | the prepared statement of the shim, as a value, over whole runs, and as an object |
| `Mirror`, `Errors` | the connection state the shim caches from each response, and the code a client is told from the engine's own result on |
| `Wire`, `Witness` | one Exec with both its frames, and an engine and codecs for which the size bound is an exact number of bytes |

Code that changes state is a class or a method (`Worker`, `ByteStream`, `ProxyDb`, `Process`,
`ProxyStmt`, `Connection`, `Rng`, and the loops of the codecs, the scanner and the scripts). Each
method's contract says that the new state is a named function of the old one. The properties are
lemmas about those functions.

Histories that the source does not keep are part of the modelled state where a property speaks of
them: the messages sent into reply channels, the log of statements run, the order of service, the
connections opened and shut down, and the bindings of each Exec. They influence nothing.

## Where the code falls short of what it suggests

- `sqlite3_bind_blob` accepts any blob below 2 GiB (`shim/src/lib.rs:937-960`), but a request whose body
  exceeds 16 MiB is not sent (`protocol/src/lib.rs:194-199`), so the step of a statement with a blob of
  more than 12 MiB fails with code 1 (`LargeBlobFails`). An answer that exceeds the bound is worse: its
  statements have taken effect, the client is told of a failure, and the broker drops the session with
  any open transaction (`server/src/broker.rs:672-676`, `OversizedAnswer`). `BlobSurvives` says exactly
  when a blob comes back; `EchoLimitIsExact` is an instance where that is a number of bytes.
- A blob of no bytes is bound with a null pointer (`server/src/broker.rs:476-478`), which binds
  NULL. `CellRoundTrip` and `BlobSurvives` say exactly which values survive.
- A text with a NUL is cut at the NUL on the way out of the broker (`server/src/broker.rs:527-535`)
  and refused on the way in (`server/src/broker.rs:462`). `CellRoundTrip` covers both.
- A Prepare that fails answers with zero counters, so the shim forgets the last row id and the
  change count. `PrepareMirrors` gives the exact condition and `FailedPrepareForgets` an instance.
- With bound parameters and trailing SQL, the error comes after the first statement has taken
  effect. `TrailingSqlComesLate` says exactly when.
- `decode_base64` accepts text that no encoder writes: padding in any group, and discarded bits that
  are not zero. `ReencodeIffCanonical` gives the exact set of texts that encode back to themselves.
- A `migrate` call whose COMMIT succeeds returns an error if the answer is lost, and the next process
  returns 0 for that version. `ReturnsSumToVersions` says exactly when the returns of all processes
  still add up to the number of versions, and `BothShortfalls` is a run in which they do not.
- `migrate` ignores an error that says a column or table exists (`server/src/hammer.rs:204-209`) and
  marks the version as applied. If the failing statement is not the last of its script, the rest of
  the script is never run. `EachVersionOnce` counts what is in effect, `PartsInEffect` says exactly
  when nothing is missing, and `BothShortfalls` is a run that leaves a part out. With the driver's
  own versions nothing is ever missing (`DriverPlanIsComplete`).
- The audit compares a count, a sum, two tokens and a balance. `DamageIsCaught` says exactly which
  single changes of a file it notices. It does not notice another token in an event that is neither
  sample nor last, or another kind with the same balance.
- The header of `server/src/broker.rs` says that every other session's statement waits during a
  transaction. Opening, closing and losing a session do not wait.

## Model

| member | source | states |
|---|---|---|
| `Base64.EncodeBase64` | protocol/src/lib.rs:41-67 | the chunk loop with its remainder writes the specified text, four letters for every three bytes begun |
| `Base64.DecodeBase64` | protocol/src/lib.rs:69-111 | the quartet loop accepts and yields exactly what the specified decoder does, refusing misplaced padding, foreign characters and ragged lengths |
| `Base64.RoundTrip` | protocol/src/lib.rs:41-111 | every byte string survives encoding and decoding |
| `Base64.EncodedLength` | protocol/src/lib.rs:41-67 | encoded text has 4 * ceil(n / 3) characters |
| `Base64.DecodeConcat` | protocol/src/lib.rs:85-109 | decoding distributes over concatenation at a quartet boundary, and fails if either part fails |
| `Base64.ReencodeIffCanonical` | protocol/src/lib.rs:69-111 | decoded text encodes back to itself if and only if padding stands in the last quartet only and no discarded bit is set |
| `Base64.RaggedIsRefused` | protocol/src/lib.rs:81-83 | text whose length is no multiple of four does not decode |
| `Base64.BytesSurvive` | protocol/src/lib.rs:46-50 | packing three bytes into 24 bits loses nothing, read as four groups or as three bytes, and padded bytes leave zero groups |
| `Base64.GroupsSurvive` | protocol/src/lib.rs:90-108 | packing four six-bit groups loses nothing, read as three bytes or as four groups |
| `Base64.AlphabetIs` | protocol/src/lib.rs:42 | the alphabet by its ASCII codes |
| `Base64.EncodeVectors` | protocol/src/lib.rs:41-67 | test vectors of section 10 of RFC 4648 |
| `Framing.LengthIsLossless` | protocol/src/lib.rs:200-209 | the four-byte little-endian prefix gives back every 32-bit length |
| `Framing.FrameLayout` | protocol/src/lib.rs:191-204 | a frame is the body's length in four bytes, least significant first, and the body; there is none above 16777216 bytes |
| `Framing.ByteStream.ReadExact` | protocol/src/lib.rs:206-217 | takes exactly n bytes off the front of the unread ones, or fails at the end of the stream |
| `Framing.WriteMsg` | protocol/src/lib.rs:191-204 | appends one complete frame, or nothing if the message does not serialise or exceeds 16 MiB |
| `Framing.ReadMsg` | protocol/src/lib.rs:206-220 | returns the message of the first frame and leaves the bytes behind it, with the code's three kinds of failure |
| `Framing.ReadFrameMeans` | protocol/src/lib.rs:206-220 | reading decides by the four bytes of the prefix: too few bytes are an end of file, a length above 16777216 is refused whatever follows, and then the body decides |
| `Framing.FrameReadsBack` | protocol/src/lib.rs:191-220 | a written message is read back, whatever follows it |
| `Framing.CutFrameFails` | protocol/src/lib.rs:206-217 | a frame cut anywhere before its end yields no message but an end-of-file error |
| `Framing.CutConversation` | protocol/src/lib.rs:191-220 | a conversation cut after any number of bytes yields exactly the messages whose frames are complete, then end-of-file |
| `Framing.Conversation` | protocol/src/lib.rs:191-220 | any list of messages is read back whole from its concatenated frames, and then the stream is at its end |
| `Scanner.Keyword` | shim/src/api.rs:16-48 | the index loop terminates within bounds and agrees with a recursive grammar on every text |
| `Scanner.SkipBlock` | shim/src/api.rs:28-34 | stops behind the first terminator, or at the end of the text |
| `Scanner.TriviaIsSkipped` | shim/src/api.rs:21-34 | a blank, a newline-ended line comment or a closed block comment in front never changes the answer |
| `Scanner.KeywordLanguage` | shim/src/api.rs:16-48 | the answer is w if and only if the text is trivia followed by a maximal word whose letters are, one by one, those of the capitals w in either case |
| `Scanner.BlankCodes` | shim/src/api.rs:21-23 | blanks are the five ASCII white-space characters |
| `Scanner.AnswerIsCapitals` | shim/src/api.rs:35-44 | every answer is a non-empty word of ASCII capitals |
| `Scanner.UnclosedBlock` | shim/src/api.rs:28-34 | a block comment that is never closed gives no answer |
| `Engine.ValueMeans` | server/src/broker.rs:455-490 | what the engine is given for each kind of cell: nothing for a text with a NUL or a blob that is not base64, NULL for a blob of no bytes |
| `Engine.CellRoundTrip` | server/src/broker.rs:455-541 | a value read from a row and bound again is the same if and only if it is neither the empty blob nor a text with a NUL; what becomes of those two |
| `Script.BindParams` | server/src/broker.rs:455-497 | parameters are bound in order up to the first bad one; blobs are decoded, empty ones become NULL, texts with a NUL are refused |
| `Script.BindAllMeans` | server/src/broker.rs:455-497 | binding succeeds if and only if every cell has a value the engine accepts, and then each value goes to its index, in order |
| `Script.StepToEnd` | server/src/broker.rs:424-436 | stepping collects all rows, lands the statement's effect and finalises on success and on error |
| `Script.TakeTurn` | server/src/broker.rs:395-450 | one turn of the loop: compile, bind, step, look at the tail, with every early exit; on each of them the compiled statement has been finalised |
| `Script.ExecuteInner` | server/src/broker.rs:381-453 | the loop terminates for every tail the engine returns, computes the specified outcome and leaves as many statements open as before |
| `Script.LoopFaults` | server/src/broker.rs:381-453 | with no lock around, a script fails only by its own fault: an SQLite error, a NUL, a bad binding or trailing SQL |
| `Script.TrailingSqlComesLate` | server/src/broker.rs:441-446 | the trailing-SQL error is given if and only if the first statement ran without error and some letter behind it is no space; its effect has landed by then |
| `Script.NulIsRefused` | server/src/broker.rs:297-386 | a text with a NUL anywhere is refused whole by Exec and Prepare, with nothing run, and no other text is for this reason |
| `Script.ExecuteScript` | server/src/broker.rs:258-295 | Exec's answer: rows and counters on success, no rows and zero changes on failure, the true autocommit flag on both |
| `Script.PrepareMeta` | server/src/broker.rs:297-369 | Prepare's answer, with the engine's columns for a statement, and that the connection comes back exactly as it was |
| `Script.FaultsWhenFree` | server/src/broker.rs:258-369 | without a lock elsewhere neither Exec nor Prepare answers busy |
| `ScriptSplit.PieceIsOneTurn` | shim/src/lib.rs:613-630 | running the text up to the first tail alone is one turn of the script loop |
| `ScriptSplit.ScriptEqualsPieces` | server/src/broker.rs:381-453 | a script sent as one Exec and the same script cut at Prepare's tails end in the same connection, file, rows or failing statement |
| `Preparing.PreparedTells` | server/src/broker.rs:297-369 | Prepare's answer from the engine's compile result: failure, columns, emptiness and tail, never rows, and the true autocommit flag |
| `Preparing.PrepareMakes` | shim/src/lib.rs:588-677 | what the client gets from the engine's compile result: the code, a statement with the engine's columns and the text up to the engine's tail, without bindings and before its first step, and the tail pointer |
| `Preparing.ColumnsAsAnnounced` | shim/src/lib.rs:640-644 | the columns announced by Prepare are those a successful Exec of the cut text answers, whatever is bound, and so those the statement has after a step |
| `Preparing.RegistryFollows` | shim/src/lib.rs:613-677 | the registries answer with the code of the call and link a statement exactly if one was made |
| `Broker.Worker.constructor` | server/src/broker.rs:125-131 | the worker starts with no session, no holder and an empty queue |
| `Broker.Worker.HandleJob` | server/src/broker.rs:138-169 | one job: open, drop, close, wait behind another holder, or run now, then serve the queue |
| `Broker.Worker.DispatchOne` | server/src/broker.rs:171-180 | routes a request to Exec, Prepare or Close |
| `Broker.Worker.PrepareOne` | server/src/broker.rs:182-193 | answers from the session's connection or says there is no session, and changes neither holder nor queue |
| `Broker.Worker.ExecOne` | server/src/broker.rs:195-213 | runs the script; the holder is set by an open transaction and cleared by its end |
| `Broker.Worker.PumpQueue` | server/src/broker.rs:215-222 | serves the queue from the front while nobody holds |
| `Broker.Worker.DropOne` | server/src/broker.rs:224-241 | removes the session and its holdership, refuses its queued requests oldest first and keeps the others in order |
| `Broker.WorkerLoop` | server/src/broker.rs:125-135 | the worker thread handles the jobs of the channel one after another |
| `BrokerInvariants.NoOtherLock` | server/src/broker.rs:158-166 | whenever a session's statement may run, no other connection is in a transaction or has an open statement |
| `BrokerInvariants.LockIsFelt` | server/src/broker.rs:395-407 | were another connection in a transaction or left with an open statement, a request would be answered busy and do nothing |
| `BrokerInvariants.HandleKeepsInv` | server/src/broker.rs:138-242 | every job keeps the holder invariant, including failed scripts that leave a transaction open and the loss of the holder |
| `BrokerInvariants.HolderIsTheOpenTransaction` | server/src/broker.rs:138-242 | in every run the holder is exactly the one live session not in autocommit, at most one connection is locked, whoever waits waits for a holder, and nobody was ever answered busy |
| `Busy.FreeIsNotBusy` | server/src/broker.rs:258-369 | if SQLite alone with the file never answers SQLITE_BUSY, neither Exec nor Prepare without another lock carries that code |
| `Busy.BusyIsImpossible` | CONTRIBUTING.md:33 | under that law no answer in any run carries the code SQLITE_BUSY, whatever is opened, closed, lost or left open by failed scripts |
| `BrokerInvariants.HandleConserves` | server/src/broker.rs:138-241 | a job adds its own reply channel and nothing else to those answered or waiting |
| `BrokerInvariants.EveryRequestOnce` | server/src/broker.rs:138-241 | in every run each request is answered once or queued once, never both |
| `Serial.LoopReplays` | server/src/broker.rs:381-453 | a script's statements are a legal run of one sequential database and end where the connection is |
| `Serial.HandleRefines` | server/src/broker.rs:138-242 | every job extends the log to a longer legal run of the sequential database |
| `Receipts.ExecuteRows` | server/src/broker.rs:258-295 | a successful Exec answers exactly the rows of the statements it ran, which were compiled one behind the other from its text; a failed one answers neither rows nor columns |
| `Receipts.EveryAnswerHasItsSegment` | server/src/broker.rs:182-222 | in every run each answer to an Exec or Prepare of a live session has a segment of the log of its own, in the same order; its rows are those of the statements its request ran there, and every statement in the log belongs to exactly one answer |
| `Receipts.SystemAnswersItsOwn` | server/src/broker.rs:603-696 | so has each answer in every reachable state of the whole system |
| `Serial.BrokerIsSequential` | server/src/broker.rs:1-3 | for every list of jobs the many-connection broker refines one sequential database with at most one open transaction |
| `Blocks.Serialisable` | server/src/broker.rs:137-242 | the file is the fold, in log order, of the autocommit statements and the committed blocks; rolled back and dropped blocks contribute nothing; the holder's working copy adds its own statements |
| `Blocks.NothingLandsInside` | server/src/broker.rs:1-3 | between a statement that leaves its session inside a transaction and the end of that transaction, no Exec, Prepare or statement of another session happens, not even one that does not compile |
| `Fairness.PumpServesPrefix` | server/src/broker.rs:215-222 | one run over the queue serves exactly a prefix in order and stops only with an empty queue or because the last one served now holds |
| `Fairness.ArrivalOrder` | server/src/broker.rs:158-236 | a request is overtaken only by a session that held the transaction when its own later request arrived; the queue stays in arrival order |
| `Fairness.HandleAdvances` | server/src/broker.rs:208-222 | a job that ends a transaction moves every waiting entry at least one place forward, and no job moves one back |
| `Fairness.BoundedWaiting` | server/src/broker.rs:215-240 | an entry with n before it has been served once n + 1 transactions have ended, unless its own session is torn down |
| `Discipline.HandleIsOrderly` | server/src/broker.rs:138-241 | fed by sessions with one request outstanding, the queue never contains the holder or a session twice, and every message truthfully answers the job or a queued entry |
| `Clients.WorkKeeps` | server/src/broker.rs:132-169 | a step of the worker keeps the invariant of the whole system |
| `Clients.StepKeeps` | server/src/broker.rs:614-696 | so does every step of every client thread: accepting, hello, reading, answering, disconnecting |
| `Clients.ReachableKeeps` | server/src/broker.rs:603-696 | the system invariant holds in every reachable state, for any number of clients |
| `Liveness.QueuedBehindLiveHolder` | server/src/broker.rs:152-222 | if anybody is queued there is a holder, live and not queued itself, whose client reads its socket or has something in flight so that a step is possible |
| `Liveness.StuckOnlyBehindIdleHolder` | server/src/broker.rs:614-682 | when the system cannot move by itself, every client is gone, idle, or queued behind an idle holder |
| `Liveness.SystemSettles` | server/src/broker.rs:614-696 | without new requests and disconnections the system stops within an explicit number of steps |
| `Liveness.OneReplyOneTeardown` | server/src/broker.rs:614-696 | every reply channel is in exactly one place; the answers "no session", "session closed" and busy never occur; a session that opened is torn down exactly once |
| `Liveness.AutocommitMirror` | shim/src/lib.rs:248-305 | a session with no call outstanding caches "in a transaction" if and only if it is the broker's holder, so at most one idle session does |
| `Composed.SystemRunsJobs` | server/src/broker.rs:125-135 | in every reachable state of the composed system the worker is where some list of jobs takes it that opens each session once and is numbered in order of arrival |
| `Composed.SystemIsSerialisable` | server/src/broker.rs:137-242 | in every reachable state the file is the fold of the autocommit statements and the committed blocks |
| `Composed.SystemIsolates` | server/src/broker.rs:1-3 | in every reachable state nothing of another session stands inside a transaction |
| `Composed.SystemKeepsOrder` | server/src/broker.rs:158-236 | in every reachable state only a session that held on arrival has overtaken an earlier request, and the queue is in arrival order |
| `Composed.HelloFirst` | server/src/broker.rs:636-654 | no request is read from a client, and no answer written to it, before its hello was written |
| `Composed.SystemServes` | server/src/broker.rs:215-240 | from every state that satisfies the system invariant on, a queued request with n before it has been served once n + 1 transactions have ended; its own session cannot be torn down first |
| `Mirror.Connection.ApplyResponse` | shim/src/lib.rs:248-265 | the cache takes counters, autocommit and error code from a response: 0 on success, SQLite's own code on its failure, a failure without a code counting as 1 |
| `Mirror.Connection.Call` | shim/src/lib.rs:272-305 | a call on a closed or broken connection fails and changes only the error code; otherwise the response is applied |
| `Mirror.ExecMirrors` | shim/src/lib.rs:478-574 | after every Exec, failed or not, and after a callback abort, row id, total changes and autocommit are the broker's, and after a success the change count is too |
| `Mirror.PrepareMirrors` | server/src/broker.rs:584-600 | after a Prepare autocommit is always right, and the counters are if and only if the text has no NUL, nobody else holds a lock and it compiles, or there was nothing to count; a success gives all three counters, a failure zeros |
| `Mirror.FailedPrepareForgets` | server/src/broker.rs:307-310 | an instance where a failed Prepare resets a row id of 7 to 0 |
| `Mirror.CloseResets` | server/src/broker.rs:562-579 | the answer to a Close leaves the cache of a new connection |
| `Mirror.LostCallKeepsCache` | shim/src/lib.rs:272-294 | a call on a closed or broken connection changes nothing in the cache but the error code, which becomes 1; whether the cache is still the broker's state depends on what the broker did |
| `Errors.ExecCode` | server/src/broker.rs:381-453 | after an Exec the cached code is 0 exactly on success, the code the engine failed with at compiling or stepping (1 for 0), 1 for a fault of the script, and 5 under another lock |
| `Errors.PrepareCode` | server/src/broker.rs:297-311 | so it is after a Prepare, which only compiles |
| `Errors.StepCode` | shim/src/lib.rs:684-736 | a step whose Exec failed in the engine answers the engine's code, and so does every later one until a reset |
| `Errors.ExecAnswers` | shim/src/lib.rs:478-574 | `sqlite3_exec` answers 0, 4 after a callback abort, the engine's code, or 1 for a fault of the script or a lost call, and the cache holds the same code |
| `Migration.CallDoes` | server/src/hammer.rs:189-217 | a call with one statement either does what the statement says to connection and file, or fails, also at compile time, and leaves the file alone |
| `Migration.DdlCallDoes` | server/src/hammer.rs:204-209 | the call with a version's script leaves the file alone, and if it succeeds or fails with an error the driver ignores, the transaction holds exactly the parts up to the first one that was blocked |
| `BootCalls.Creates` | server/src/hammer.rs:142-148 | booting begins with the ledger, and ends at once if that fails |
| `BootCalls.SkipsVersion` | server/src/hammer.rs:189-202 | for a version the count finds, a process sends BEGIN, the prepared and run count, and COMMIT, and goes on with the next version |
| `BootCalls.AppliesVersion` | server/src/hammer.rs:189-218 | otherwise it sends the whole script in one call, which may fail with an error to ignore, the mark, and COMMIT |
| `BootCalls.EndsAtOnce` | server/src/hammer.rs:190-217 | a BEGIN or COMMIT that fails ends the boot with nothing more sent |
| `BootCalls.UndoesFirst` | server/src/hammer.rs:193-215 | any other failure inside the transaction is followed by ROLLBACK and then by nothing |
| `Boot.CommitFits` | server/src/hammer.rs:210-217 | committing a version keeps every part in effect exactly as often as expected |
| `Boot.ExecFits` | server/src/hammer.rs:142-218 | every call of every process keeps connection, file and ledger where the process's next step expects them, whether it succeeds, fails with an ignored error, or fails |
| `BootSteps.DispatchFits` | server/src/broker.rs:171-213 | serving a call keeps the invariant of the worker: queue, holder, file, commits, and commits not yet heard of |
| `BootSteps.DropFits` | server/src/broker.rs:224-241 | so does tearing a session down at any moment |
| `BootTheorems.HearKeeps` | server/src/hammer.rs:190-217 | a process that hears an answer keeps the invariant, and a return of 1 is a commit not returned before |
| `BootTheorems.JobKeeps` | server/src/hammer.rs:142-218 | so do a process that arrives, sends its next call, leaves, or loses its connection |
| `BootOutcome.EachVersionOnce` | server/src/hammer.rs:142-218 | for any file, any number of processes and any interleaving, with failures at compile time and later, lost connections and lost answers: each version added was committed exactly once, every DDL part is in effect exactly as often as one run of its script up to the first blocked part makes it, nothing else was touched, and once a process has finished every version is there |
| `BootOutcome.PartsInEffect` | server/src/hammer.rs:204-212 | an added version has all its parts in effect if and only if those from the first blocked one on were in effect before; if none was, each has taken effect exactly once; a part run takes effect once more unless it says IF NOT EXISTS of something that exists |
| `BootOutcome.DriverPlanIsComplete` | server/src/hammer.rs:149-185 | with the driver's own three versions no added version misses a part, whatever was in effect before |
| `BootOutcome.ReturnsAndCommits` | server/src/hammer.rs:189-218 | every return of 1 was of a different commit, and returns and commits are equally many if and only if no process has a successful COMMIT it has not heard of |
| `BootOutcome.ReturnsSumToVersions` | server/src/hammer.rs:149-186 | from a file with none of the versions, once one process has finished, the versions committed are as many as planned, the `migrate` results add up to at most that, and to exactly that if and only if no process has a successful COMMIT it has not heard of |
| `BootOutcome.AllFinishedReturns` | server/src/hammer.rs:142-187 | if every process finishes, the `migrate` results add up to the number of versions |
| `BootSystem.SystemMigrates` | server/src/broker.rs:603-696 | every run of client threads, channel and worker in which each process sends what its last written answer calls for is a run of the processes over the worker, with answers heard when they are written |
| `BootSystem.SystemEachVersionOnce` | server/src/hammer.rs:142-218 | so in every state of the whole system each version added was committed exactly once with every part as often as expected, every return of 1 was of a different commit, and returns and commits are equally many if and only if no successful COMMIT is unheard |
| `BootExample.BothShortfalls` | server/src/hammer.rs:204-217 | a run in which a lost answer makes the results add up to 0 for one committed version, and an ignored error leaves that version's second part out |
| `BootExample.IdealIsLawful` | server/src/hammer.rs:189-222 | an engine with the statements of a migration, and errors to ignore, meets the assumptions |
| `Names.DecimalRoundTrip` | server/src/hammer.rs:67 | a number printed in decimal is read back, in digits only |
| `Names.NameInjective` | server/src/hammer.rs:67 | rows of different workers or steps never share a name |
| `Names.NameReads` | server/src/hammer.rs:67 | two names as they are written |
| `Hammer.XorshiftIsAlive` | server/src/hammer.rs:18-48 | the generator reaches the state 0, in which it would stay, from no other state, and the seed with its lowest bit set does not start there |
| `Hammer.XorshiftDraws` | server/src/hammer.rs:18-48 | the first numbers drawn from three seeds |
| `Hammer.ChoicesOf` | server/src/hammer.rs:29-31 | choices are taken modulo the number of cases, for one number drawn |
| `Hammer.ChooseWrite` | server/src/hammer.rs:67-97 | the write is the one the generator's state leads to, and it is proper: with no live row an insert, an update of a live row, a delete of the newest live row, taken off the stack |
| `Hammer.RunWorker` | server/src/hammer.rs:46-134 | for every seed the turns are the program the generator leads to and form a valid program, the printed counters are those of the program, reads and writes add up, and the result is an error exactly without writes |
| `Hammer.Audit` | server/src/hammer.rs:435-484 | the loop over the claims accepts if and only if every claim agrees with the tables |
| `HammerAudit.TablesFit` | server/src/hammer.rs:60-121 | after any interleaving each worker's rows are exactly what its own turns left, in order, and every row carries its own name |
| `HammerAudit.ClaimMatches` | server/src/hammer.rs:98-126 | the ledger's counts, sum, sample and last token are those of the events the worker wrote, and inserts minus deletes is the size of its live stack |
| `HammerAudit.AuditPasses` | server/src/hammer.rs:435-478 | after any interleaving of valid programs every worker that wrote passes the audit |
| `HammerAudit.NoConflict` | server/src/hammer.rs:154-169 | the next turn of any worker breaks neither UNIQUE nor the event table's primary key |
| `HammerRows.TablesAgree` | server/src/hammer.rs:67-97 | after any interleaving of turns an item row is there if and only if its insert is recorded and its delete is not, and it was edited as often as updates of its name are recorded |
| `AuditDamage.DamageIsCaught` | server/src/hammer.rs:435-478 | for every file a claim agrees with: after an event was lost, doubled, renumbered, given another token or kind, or an item row lost or gained, the audit fails if and only if the row is the worker's and the change is none that no claim speaks of |
| `AuditDamage.StormDamageIsCaught` | server/src/hammer.rs:383-485 | so for the file any interleaving of turns leaves and every worker that wrote |
| `AuditDamage.AuditCountsTurns` | server/src/hammer.rs:435-452 | whatever turns took effect, a worker whose claim passes has exactly as many writes in the file, with the same sum of steps, as it reported |
| `AuditDamage.LostTurnIsNoticed` | server/src/hammer.rs:442-447 | a reported write that did not take effect, took effect twice or was replaced by a turn of another step makes the audit fail |
| `AuditDamage.ClaimTells` | server/src/hammer.rs:98-126 | sample and last are the tokens of the worker's first and last event, and each kind is counted as often as it was written |
| `HammerBroker.ScriptIsAtomic` | server/src/hammer.rs:72-97 | a turn's script either succeeds and takes effect as a whole, or leaves the file as it was |
| `HammerBroker.QuietScript` | server/src/hammer.rs:142-218 | a script of a boot, whatever of it fails, changes the rows neither in the file nor in a working copy |
| `HammerBroker.FileIsFold` | server/src/broker.rs:195-222 | whatever fails, waits or disconnects, and whoever boots meanwhile in transactions of several calls, the file holds exactly the turns answered without a fault, in the order of the answers, and every working copy is the file unless a turn of its session failed; sessions have one request outstanding, and one whose turn failed sends no statement of a boot any more |
| `HammerOrder.AnsweredInOrder` | server/src/hammer.rs:60-121 | workers that send their programs in order, each turn after the fault-free answer to the last, have their answered turns in program order, whatever fails, waits or disconnects |
| `HammerOrder.AuditAgrees` | server/src/hammer.rs:383-485 | for such workers, over the broker, with boots in between and any failures of other workers, the file agrees with the claim of every worker that wrote and whose turns were all answered without a fault |
| `HammerSystem.SystemAudit` | server/src/hammer.rs:46-134 | so it does in every state of the whole system, the conditions being on the requests when the clients send them |
| `HammerReliable.ScriptSucceeds` | server/src/hammer.rs:98 | on a connection in autocommit a turn without a conflict succeeds and takes effect |
| `HammerReliable.StormSucceeds` | server/src/hammer.rs:46-134 | with an engine that fails a turn's statement only for a reason, workers that boot, whatever fails there, and then send their turns in order, in any interleaving: no turn fails, somebody waits only while a session holds a transaction that no turn left open and whose working copy is the file, the turns asked for are those answered and then those queued, and the audit passes |
| `HammerSystem.SystemStorm` | server/src/hammer.rs:46-134 | so it is in every state of the whole system, if a turn is sent while the connection's cached flag says autocommit; the turns sent are those answered, those queued and those in the channel, in this order |
| `HammerReliable.IdealEngineIsReliable` | server/src/hammer.rs:154-169 | an engine with the driver's two tables and their constraints meets the assumptions |
| `Handles.PrepareKeeps` | shim/src/lib.rs:588-677 | preparing keeps the registries sound, on an open and on a closed connection |
| `Handles.CloseKeeps` | shim/src/lib.rs:431-465 | closing does, whether it refuses, defers or destroys |
| `Handles.FinalizeKeeps` | shim/src/lib.rs:810-829 | finalising does, including the last statement of a closed connection |
| `Handles.LifecycleIsSafe` | shim/src/lib.rs:431-465 | over every sequence of calls: no statement outlives its connection, so no finalise follows a dangling pointer; each is listed once by exactly its own connection, a closed connection is kept only for its statements, and each connection is shut down exactly once, when it stops being live |
| `Handles.WalkVisitsAll` | shim/src/api.rs:448-457 | starting from NULL, `sqlite3_next_stmt` visits every statement of the connection once, oldest first, then answers NULL |
| `Handles.DrainEmpties` | shim/src/api.rs:448-457 | finalising `next_stmt(db, NULL)` once per statement empties the list, ends a closed connection with one shutdown, and touches no other connection |
| `HandleAnswers.PlainClose` | shim/src/lib.rs:431-456 | `sqlite3_close` answers 5 and changes nothing while a statement is live, and otherwise 0 with one shutdown |
| `HandleAnswers.DeferringClose` | shim/src/lib.rs:436-456 | `sqlite3_close_v2` answers 0: with a live statement connection, list and owners stay, now closed; without one it is shut down once |
| `HandleAnswers.ForeignClose` | shim/src/lib.rs:431-447 | closing NULL answers 0, an unknown pointer goes to the real library, and neither changes anything |
| `HandleAnswers.OpenAnswers` | shim/src/lib.rs:387-419 | a new connection is live, open and without statements; otherwise the code is 14 |
| `HandleAnswers.PrepareAnswers` | shim/src/lib.rs:588-677 | a new statement is answered with 0 and its handle and is visited last; a closed connection, a refusal and no SQL answer NULL with code 1, the broker's, and 0 |
| `HandleAnswers.FinalizeAnswers` | shim/src/lib.rs:810-829 | finalising answers 0 and removes the statement; its connection ends exactly if it was closed and has none left; everything else stays |
| `HandleAnswers.ForeignNext` | shim/src/api.rs:448-457 | the successor of a pointer that is no statement of the connection is NULL |
| `HandleAnswers.PlainClosesNeverDefer` | shim/src/lib.rs:448-455 | in every run with plain closes only, no live connection is closed, no finalise ends one, and every connection takes new statements |
| `HandleAnswers.ClosesInEveryRun` | shim/src/lib.rs:431-456 | in every run, after an accepted plain close the connection is gone and no statement points to it, a refused one changes nothing, and after a deferring one the connection is there exactly while a statement points to it |
| `ShimProcess.ProxyDb.UnlinkStmt` | shim/src/lib.rs:330-332 | removes the statement from the list and keeps the order of the others |
| `ShimProcess.ProxyDb.NextStmt` | shim/src/api.rs:448-457 | the successor in the list, the first for NULL, and NULL for the last or an unknown one |
| `ShimProcess.Process.OpenDb` | shim/src/lib.rs:387-419 | registers a new connection, or answers CANTOPEN and changes nothing |
| `ShimProcess.Process.CloseDb` | shim/src/lib.rs:431-456 | NULL, unknown, busy, deferred and immediate close; with live statements a plain close is refused with 5 and a deferring one answers 0 and keeps the list; other connections keep their objects and contents |
| `ShimProcess.Process.DestroyDb` | shim/src/lib.rs:458-465 | unregisters and shuts down a live connection, and does nothing otherwise |
| `ShimProcess.Process.PrepareV2` | shim/src/lib.rs:588-677 | links a new statement, or none after a failure, on empty SQL or on a closed connection |
| `ShimProcess.Process.FinalizeStmt` | shim/src/lib.rs:810-829 | unlinks the statement; the connection it points to is always there; the last one destroys a closed connection |
| `Cursor.UpsertBinds` | shim/src/lib.rs:852-858 | the parameter list means a map in which the last value bound to an index counts |
| `Cursor.StepRefines` | shim/src/lib.rs:684-736 | a step behaves as the plain cursor's step, answer included, and keeps cache and position in agreement |
| `Cursor.BindRefines` | shim/src/lib.rs:852-858 | a bind updates the map, or is refused as misuse once the statement has started or for an index below 1 |
| `Cursor.ResetRefines` | shim/src/lib.rs:832-850 | reset returns to a new statement with the same columns and bindings; clearing drops the bindings and keeps the position |
| `Cursor.ReadingsAgree` | shim/src/api.rs:178-301 | type, text, blob and length all speak of the same cell of the current row, and of nothing outside a row; the type is 1, 2, 3, 4, 5 exactly for integer, real, text, blob, and NULL or nothing |
| `CursorRuns.RunRefines` | shim/src/lib.rs:684-858 | for every list of calls the statement answers as the plain cursor does and sends its Execs with the plain cursor's bindings |
| `CursorRuns.PreparedRefines` | shim/src/lib.rs:631-671 | so does a newly prepared statement, from empty bindings on |
| `CursorRuns.OneExecBetweenResets` | shim/src/lib.rs:692-719 | between two resets at most one Exec is sent, and bindings can then only be cleared |
| `CursorRuns.StepsYield` | shim/src/lib.rs:684-736 | an answer of n rows is read as exactly n results 100, the k-th showing the k-th row, then 101 for ever; a failure repeats its code for ever; the columns become the answer's, if it has any |
| `CursorRuns.BindingHandsOver` | server/src/broker.rs:473-484 | the parameters sent after a blob was bound, whatever else is bound, hand the engine the same bytes, an empty blob as NULL |
| `CursorRuns.BindAnswers` | shim/src/lib.rs:852-858 | a bind answers 21 on a started statement or for an index below 1, and otherwise 0, binds the cell and changes nothing else |
| `CursorRuns.BindBlobAnswers` | shim/src/lib.rs:937-960 | a blob bind answers 21 also for a null pointer with a length and 18 for a negative length; otherwise the bound text decodes to the bytes given |
| `CursorRuns.BindZeroblobAnswers` | shim/src/api.rs:149-175 | a zeroblob bind answers 18 below 0 and above 8388608; otherwise the bound text decodes to that many zero bytes |
| `CursorRuns.ColumnArrives` | shim/src/lib.rs:739-767 | a value of the engine's row is read as the cell that carries it, with type 1, 2, 3, 4, 5 exactly for an integer, real, text, blob and NULL value, and a blob as the same bytes |
| `Wire.FramesFit` | shim/src/lib.rs:272-305 | if the request and its answer fit their frames, the client is told the worker's own answer |
| `Wire.OversizedRequest` | protocol/src/lib.rs:191-204 | a request too large for a frame fails with code 1, and the worker never hears of it |
| `Wire.OversizedAnswer` | server/src/broker.rs:672-676 | an answer too large for a frame: the effect on the file stays, the client is told of a failure with code 1 and its cache keeps the state before, the session is torn down and its transaction is gone |
| `Wire.BoundBlobArrives` | shim/src/lib.rs:937-960 | if the request fits a frame, a bound blob reaches the engine as the same bytes, an empty one as NULL; otherwise nothing reaches it and the call fails with code 1 |
| `Wire.BlobSurvives` | server/src/broker.rs:455-541 | bound, framed, sent, echoed, framed, sent back and read, a blob has the bytes it was bound with if and only if the request and the answer fit their frames; otherwise the step fails with code 1 |
| `Wire.LargeBlobFails` | protocol/src/lib.rs:194-199 | with bodies no shorter than the texts they carry, every blob of more than 12 MiB is accepted by the bind and fails in the step |
| `Witness.EchoEngineIsLawful` | server/src/broker.rs:381-453 | an engine of one statement meets the laws of cut scripts, of answers that are never busy, and of echoing |
| `Witness.EchoCodecsAreLawful` | protocol/src/lib.rs:191-220 | codecs of its request and answer meet the laws of the wire |
| `Witness.EchoLimitIsExact` | protocol/src/lib.rs:194-199 | with these a blob comes back if and only if it has at most 12 MiB less three bytes; up to 12 MiB the session is lost with the answer, beyond that the worker never hears of the request |
| `ProxyStatement.ProxyStmt.StepStmt` | shim/src/lib.rs:684-736 | the first step asks the broker and buffers the answer; later ones serve rows or repeat the failure |
| `ProxyStatement.ProxyStmt.CacheCurrentRow` | shim/src/lib.rs:739-758 | fills the text and blob caches from the current row, cell by cell |
| `ProxyStatement.ProxyStmt.ResetStmt` | shim/src/lib.rs:832-850 | clears everything but the bindings and the columns |
| `ProxyStatement.ProxyStmt.UpsertParam` | shim/src/lib.rs:852-858 | overwrites the parameter with this index in place, or appends one |
| `ProxyStatement.ProxyStmt.BindAny` | shim/src/lib.rs:861-980 | a text, number or NULL is bound, or refused as misuse once the statement has started or for an index below 1 |
| `ProxyStatement.ProxyStmt.BindBlobValue` | shim/src/lib.rs:937-960 | the checks in their order: misuse, a null pointer with a length, a negative length; then the encoded bytes are bound |
| `ProxyStatement.ProxyStmt.BindZeroes` | shim/src/api.rs:149-175 | binds n zero bytes, or answers TOOBIG below 0 and above 8 MiB |
| `ProxyStatement.ProxyStmt.Clear` | shim/src/api.rs:132-146 | drops all bindings, also on a started statement |

## Left out

- SQLite itself: SQL, B-trees and file locks are the engine parameter. A lock is being in a transaction or having an unfinalised statement.
- TCP, threads and mpsc: a FIFO channel, reply channels used once, and disconnections at any moment a client reads or writes.
- Session numbers do not wrap around at 64 bits, and counters are unbounded integers.
- serde_json: a pair of functions with a round-trip law on the messages they can carry. Hello messages carry no content.
- Liveness.AutocommitMirror: in the composed system an answer that is written is read, and a REAL of the model is finite. serde_json writes an infinite REAL as `null`, which the shim cannot read back as a number; after `BEGIN; SELECT 9e999` the broker would hold a transaction and the shim still cache autocommit, with the connection intact.
- A tail pointer is an offset into the text given to the engine; one at or past the end stands on the terminating NUL. Column declared types and parameter names of Prepare are not modelled.
- Preparing.PrepareV2: the text ends with a NUL. With a byte count the caller's tail pointer is left alone when the call fails.
- Errors.ExecAnswers: whether some row callback asks to stop is a parameter; what the callbacks are given is not modelled.
- Rendering of numbers as text, number conversions in column accessors and lossy UTF-8: a cached text is identified by the cell or the bytes it renders.
- Logging has no effect in the model. The slice at byte 120 in `sql_brief` is not claimed to be total.
- Handles the shim does not know are answered `Forwarded`; what the real library does with them is not modelled, nor are destructors of bound values.
- Handles.LifecycleIsSafe: calls are one after another; the shim's locks are not modelled.
- BootOutcome.EachVersionOnce: which errors are ignored is a parameter on the response's fault, where the code looks into the message; the law says that such an error means a DDL part in effect that cannot be repeated. In `BootRuns` a job is handled when it is sent, and its answer is heard later or never; `BootSystem` adds the channel and the client threads.
- Hammer.Audit: the file header, the integrity check, the migration table and the printed claim line are not modelled.
- HammerReliable.StormSucceeds: the two tables are there and empty from the start; that a process which has finished its boot finds every version applied is `EachVersionOnce`. Nothing is asked of the statements of a boot but that they leave the rows alone.
- The reconnection every 200 steps appears as sessions opened and closed at any time; the four queries of a read are one statement without effect.
- Stub files, opening of the storage file with its retries, command line, C wrapper, and constant API answers.
