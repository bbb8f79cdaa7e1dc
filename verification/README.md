# OpenRath durable runtime: a verified model

OpenRath v2 runs workflows durably: workers claim runs under leases with fencing tokens, execute
one compiled node at a time, commit versioned checkpoints, park runs on interrupts, and record
tool side effects in a ledger, so that any process may crash at any point. This project models that
protocol and the pieces around it, and proves what they promise.

| module | models |
|---|---|
| `Models`, `Records` | run, lease, checkpoint, interrupt and event values; the transition table; every store transaction on the rows of one run |
| `Sequential` | plain sequential execution of a plan: the reference for everything durable |
| `RecordInvariant` | what every transaction keeps about a run's rows, and how rows evolve |
| `Effects`, `ToolExecution`, `EffectLedger` | the ledger of tool invocations, executors interleaving around it, and the ledger and `execute` as code |
| `Protocol`, `ProtocolProof`, `WorkerProof`, `History`, `Recovery` | the whole protocol as a state machine, its invariant, the theorems about all histories, and recoverability |
| `RunStore` | the SQLite store as a class whose methods change tables in place |
| `Worker` | `work_once` as code over that class, compared with sequential execution |
| `Dispatch`, `SessionLoop` | resource-keyed parallel tool dispatch and the session loop around it |
| `Streams`, `StreamOrder`, `StreamHangs`, `StreamWitnesses`, `StreamRuntime` | FIFO streams joined by events: all interleavings, happens-before, exactly which operations hang, short telling runs, and the public methods as code |
| `Compiler` | workflow validation and compilation |
| `Cursors` | paging over runs and events, and server-sent event resumption |
| `Sums` | sums used as termination measures |

How the parts hang together. A history of `Protocol` interleaves submissions, any number of workers
(whose steps sit between two store accesses of `work_once`), crashes, lease renewals and losses,
requeues, interrupt decisions and expiries, operators acting on rows they read earlier, and ledger
transactions. Clock readings are arbitrary in every step. The store's class methods are proved to be
those transactions, `ToolExecution`'s steps are proved to be those ledger transactions, and the
compiler's acceptance supplies the hypothesis of the executor's lookups. Handlers are functions of
the state and of the recorded decision.

Results that correct an expectation:

* A plan can be accepted with a step that has two successors; such a step never completes
  (`Compiler.StepCompletes` says exactly which steps can, `Compiler.ForkIsAccepted` shows one), and
  a run that has come to it never completes (`History.ForksNeverComplete`).
* `Stream.query` is wrong in two moments: it reports an idle stream while the last operation has been
  popped and is neither marked busy nor ended (`StreamWitnesses.IdleTooEarly`, and
  `StreamWitnesses.IdleWhileFailing` for a worker failing its queue), and a busy one while everything
  has ended and the flag is still up (`StreamWitnesses.BusyTooLong`). `Streams.QueryExact` says these are all.
* The stream documentation says no future hangs. `StreamHangs.HangsExactly` says exactly which do: those
  on a stream closed with no worker, and those at or behind an untimed wait whose event can no longer be
  signalled, unless an unfinished call before the wait can still bring the worker down, which would fail
  the queue. An event can no longer be signalled when it was dropped by a dying worker, is queued on a
  failing or an abandoned stream, or is behind such a wait itself. `StreamWitnesses.WaitHangs` reaches
  one on a stream that is entered, open and alive.
* A wait that times out lets its stream run ahead of the event (`StreamWitnesses.TimeoutOvertakes`, reached
  by `StreamWitnesses.TimeoutHappens`).
* A stream entered again after its worker died runs what is put on it after a wait that was dropped, with
  the event unset (`StreamWitnesses.ReentryLosesOrder`); `StreamOrder.HappensBeforeExactly` says when the
  order holds, and `StreamOrder.HappensBeforeOrdinary` that ordinary exceptions suffice.
* A ledger row is found by run and key and checked for tool and arguments, not for effect class, so a
  non-idempotent request that meets a row stored under another class can be repeated
  (`ToolExecution.StoredClassDecides`; `ToolExecution.NonIdempotentTwice` reaches it).
* The event stream reads its first page and its loop from differently preferred cursors; with two
  differing cursors the events start at the header's exactly when the query parameter points past the
  log (`Cursors.ResumesAtHeader`).
* `wait_stream` records an event on the other stream even when it then fails because this stream is
  closed (`StreamRuntime.StreamSet.WaitStream`).

## Model

| member | source | states |
|---|---|---|
| `History.CrashSafeRefinement` | src/rath/runtime/local.py:309-479 | In every history after a submission, the run's checkpoints are successive points of sequential execution from the submitted state under the recorded decisions, later ones strictly later; the row holds the latest; a succeeded run holds the sequential result and no next node |
| `History.HopsByRules` | src/rath/runtime/local.py:403-422 | Every hop of that trace follows the plan: a router goes to the successor its handler named with the state unchanged, a step to its only successor with the mapping returned, or the state as it was for nothing |
| `History.AlwaysInv` | src/rath/runtime/sqlite.py:338-349 | Every reachable state of the interleaved protocol satisfies the invariant over rows, ledger, workers and pending operator requests |
| `History.AlwaysEvolves` | src/rath/runtime/sqlite.py:1193-1215 | Between any two states of a history a run's rows only evolve: identity kept, versions, tokens, checkpoints and events only grow, decisions stay |
| `History.Fencing` | src/rath/runtime/sqlite.py:1287-1307 | Under arbitrary clocks, minted tokens strictly increase, no checkpoint, finish or renewal with an older token is accepted after a newer one is minted, and tokens of accepted writes never decrease |
| `History.CheckpointTokensAscend` | src/rath/runtime/sqlite.py:663-725 | In sequence order the tokens of accepted checkpoints never decrease and no sequence is written twice |
| `History.VersionDeterminesRow` | src/rath/runtime/sqlite.py:492-541 | Two observations of a run with the same version show the same row and checkpoints |
| `History.UnlockedReadRefines` | src/rath/runtime/postgres.py:422-459 | Postgres's unlocked read followed by a version-guarded update, for any target, state and next nodes, equals the exclusive transition at update time when the read passed its checks, and at read time when it did not |
| `History.TransitionTable` | src/rath/runtime/models.py:51-114 | Every status change of every step follows the table, also read from the target's side and where the code skips the check, and a terminal row never changes again |
| `Models.TableBothWays` | src/rath/runtime/models.py:51-114 | The table by source and by target are one: claimed from the queue only, parked, finished and reviewed from running only, anything live cancellable, nothing terminal changes |
| `History.OneRunPerSessionAndKey` | src/rath/runtime/sqlite.py:354-407 | At all times at most one live run per session and at most one run per tenant and idempotency key |
| `History.InterruptsAreUnique` | src/rath/runtime/sqlite.py:770-822 | At most one interrupt per run, node and checkpoint, never removed, its decision written once |
| `History.ReplaysHearTheSame` | src/rath/runtime/local.py:344-379 | Any two replays of a node at a checkpoint, by current or stale workers and including the step executor's retries, are handed the same decision |
| `History.DecisionsReachHandlers` | src/rath/runtime/sqlite.py:937-952 | After a step that decides an interrupt, exactly that decision is stored ever after and handed to every worker that replays the node at that checkpoint |
| `History.AsksAreTheHandlers` | src/rath/runtime/local.py:366-379 | An interrupt a worker creates carries the kind and request its handler asked with, for that node and checkpoint, its deadline counted from its creation |
| `History.WaitingMeansPending` | src/rath/runtime/sqlite.py:915-970 | A live run is WAITING exactly when it has a pending interrupt, and no run has two |
| `History.EventLogIsFaithful` | src/rath/runtime/sqlite.py:1243-1272 | Event sequences are 1..n, and folding the log gives back status (failed and timed out identified), token, latest checkpoint and version |
| `History.CheckpointsAndWatermarks` | src/rath/runtime/local.py:430-448 | Checkpoints are numbered without gaps, watermarks never decrease or exceed the ledger's although read in a separate transaction, invocation sequences are unique per run |
| `History.NoOrphan` | src/rath/runtime/sqlite.py:1137-1191 | A running run has an active lease; a requeue at or after its expiry queues it and the next claim resumes exactly the latest checkpoint, or the submission |
| `History.ClaimsResume` | src/rath/runtime/sqlite.py:972-1077 | Every accepted claim of every history resumes exactly the latest checkpoint, or the submission, under the next token |
| `Recovery.Recoverable` | src/rath/server/app.py:1621-1639 | From every reachable state, a queued or running run whose sequential execution from its latest checkpoint ends has a continuation, constructed step by step, in which it succeeds with the sequential result |
| `Recovery.NodeForward` | src/rath/runtime/local.py:331-458 | A worker that holds a run can make the next sequential step, through its recorded decision and commit where there is one |
| `History.LookupsNeverFail` | src/rath/runtime/local.py:331-340 | With resolvable successors and entry, every worker's next-node tuple has at most one entry and the plan has it |
| `WorkerProof.StepKeeps` | src/rath/runtime/local.py:199-307 | Each of the 23 kinds of protocol step keeps the invariant and moves every run's rows by at most one table-conforming transaction |
| `RecordInvariant.TransitionKeeps` | src/rath/server/app.py:1220-1224 | Cancelling, resuming from review and moving to review keep the row invariant and follow the table |
| `RecordInvariant.CommitKeeps` | src/rath/runtime/sqlite.py:663-725 | Committing the next point of the trace keeps numbering, trace, watermarks and log |
| `RecordInvariant.FinishKeeps` | src/rath/runtime/sqlite.py:727-768 | Finishing keeps the row invariant; success needs an empty next-node tuple |
| `RecordInvariant.CreateInterruptKeeps` | src/rath/runtime/sqlite.py:770-822 | Parking a run on a new question keeps uniqueness and the waiting equivalence |
| `RecordInvariant.DecideKeeps` | src/rath/runtime/sqlite.py:915-970 | Deciding the pending interrupt queues the run and leaves none pending |
| `RecordInvariant.ExpireKeeps` | src/rath/runtime/sqlite.py:856-913 | Expiry decides the interrupt, times a waiting run out, and keeps the row invariant |
| `RecordInvariant.ClaimKeeps` | src/rath/runtime/sqlite.py:972-1077 | Claiming keeps the row invariant and mints the next token |
| `RecordInvariant.RequeueKeeps` | src/rath/runtime/sqlite.py:1137-1191 | Recovering an expired lease keeps the row invariant |
| `RecordInvariant.RenewKeeps` | src/rath/runtime/sqlite.py:1079-1117 | Renewing a lease keeps the row invariant and everything but its expiry |
| `RecordInvariant.ReplayAppend` | src/rath/runtime/sqlite.py:1243-1272 | Appending an event numbers it next and folds one more event into the summary |
| `Sequential.HaltsOnce` | src/rath/runtime/local.py:403-422 | Sequential execution has at most one result |
| `Sequential.StepByRules` | src/rath/runtime/local.py:403-448 | Sequential execution steps exactly by the routing, stepping and checkpoint rules, written out on outputs, states and successors |
| `Sequential.NoRule` | src/rath/runtime/local.py:404-421 | Where it does not step, no rule applies: a wrong router answer, a malformed result, a rejected state, a second successor or a missing decision |
| `Sequential.TraceByRules` | src/rath/runtime/local.py:332-332 | Every hop of a trace is one of the rules |
| `Sequential.AfterResolvable` | src/rath/runtime/local.py:403-422 | A plan with resolvable successors keeps at most one, known, next node |
| `Sequential.AfterGrows` | src/rath/runtime/local.py:344-379 | Recording more decisions never changes what already ran |
| `RunStore.SQLiteRunStore.CreateRun` | src/rath/runtime/sqlite.py:354-407 | Inserts the run, its request hash, an empty checkpoint list and one event exactly when id, key and session are free; a resubmission returns the stored run when plan, revision, session, tenant, state, next nodes and priority agree and is refused otherwise; a taken id or session is a conflict |
| `RunStore.SQLiteRunStore.TransitionRun` | src/rath/runtime/sqlite.py:492-541 | Succeeds exactly for the current version and a status that may become the target; then status, version, given state and next nodes and one event change and nothing else; the error tells which check failed |
| `RunStore.SQLiteRunStore.AppendRunEvent` | src/rath/runtime/sqlite.py:580-588 | One event is appended to the run's log and nothing else changes |
| `RunStore.SQLiteRunStore.CommitCheckpoint` | src/rath/runtime/sqlite.py:663-725 | Succeeds exactly under the writer's own active, unexpired lease, the current version, a running status and the next sequence; then checkpoint, row and event change together and nothing else |
| `RunStore.SQLiteRunStore.FinishClaim` | src/rath/runtime/sqlite.py:727-768 | Succeeds exactly under that lease, the current version and the table; then the status is set, the lease released and the reported event appended |
| `RunStore.SQLiteRunStore.CreateInterrupt` | src/rath/runtime/sqlite.py:770-822 | Succeeds exactly for a running run at the current version and a new id; then the interrupt is stored as given, the run waits and its lease is released |
| `RunStore.SQLiteRunStore.DecideInterrupt` | src/rath/runtime/sqlite.py:915-970 | Succeeds exactly for an undecided interrupt at the current version of a run that may be queued; then exactly the given decision is stored and the run queued |
| `RunStore.SQLiteRunStore.ExpireInterrupts` | src/rath/runtime/sqlite.py:856-913 | Exactly the undecided interrupts past their deadline get the system's rejection and exactly their waiting runs time out, or a conflict rolls everything back, which never happens with at most one pending interrupt per run |
| `RunStore.SQLiteRunStore.ClaimNext` | src/rath/runtime/sqlite.py:972-1077 | The queued run with the highest priority, then the oldest, then the smallest id is claimed for that worker under the next token until now plus the lease time; none only if none is queued |
| `RunStore.SQLiteRunStore.RenewLease` | src/rath/runtime/sqlite.py:1079-1117 | Succeeds exactly for the holder of the current, active, unexpired lease, which then expires at now plus the lease time; nothing else changes |
| `RunStore.SQLiteRunStore.RequeueExpiredLeases` | src/rath/runtime/sqlite.py:1137-1191 | Exactly the active leases past their expiry are released and exactly the running runs among them queued and returned; every other row is left alone |
| `RunStore.SQLiteRunStore.GetRun` | src/rath/runtime/sqlite.py:409-420 | The stored run, or not found |
| `Worker.LocalRuntime.WorkOnce` | src/rath/runtime/local.py:199-307 | Whatever the clock does only the claimed run changes and stays sound; with a lasting lease it ends succeeded, waiting, failed or still running exactly as sequential execution from its latest checkpoint completes, asks, breaks or exceeds the step limit, if there is one, with the sequential state on success and a pending interrupt for the asking node and checkpoint on suspension |
| `Worker.LocalRuntime.ExecuteClaim` | src/rath/runtime/local.py:309-479 | The loop over nodes follows the sequential fate step by step under any clock and deadline |
| `Worker.LocalRuntime.HandleNode` | src/rath/runtime/local.py:331-458 | One node moves the worker by exactly one of the rules and commits exactly that point with the ledger's watermark where the node is marked or last, parks the run on the question its handler asked, or raises where no rule applies or the lease is over |
| `Worker.LocalRuntime.Fetch` | src/rath/runtime/local.py:347-365 | The handler's output, for a router its route, for a step what it returns or resumes to under the decision recorded for its node and checkpoint |
| `Worker.LocalRuntime.LogAttempts` | src/rath/runtime/execution.py:81-139 | As many failed attempts are logged as the node may take, and the worker's position is unchanged |
| `Worker.LocalRuntime.Report` | src/rath/runtime/local.py:257-307 | A failure is recorded while the lease lasts and dropped afterwards |
| `Worker.FateIsSequential` | src/rath/runtime/local.py:332-332 | The fate is read off the sequential trace: where it ends, after how many nodes and why |
| `Worker.HaltsWithin` | src/rath/runtime/local.py:461-479 | Sequential execution that ends within the step limit is completed |
| `Effects.TransactionWellFormed` | src/rath/runtime/effects.py:197-218 | Every ledger transaction keeps one row per run and key and unique sequences per run |
| `Effects.WatermarkMonotone` | src/rath/runtime/effects.py:335-350 | The watermark never decreases along ledger transactions |
| `ToolExecution.AtMostOnce` | src/rath/adapters/tool.py:151-203 | Over all retries, executors, crashes and reconciliations the handler of a keyed row stored as non-idempotent is called at most once per run and key |
| `ToolExecution.CallsBoundedByResets` | src/rath/runtime/effects.py:286-333 | A row's handler is called at most once more than the row was reset; a row that cannot be reset at most once |
| `ToolExecution.StoredClassDecides` | src/rath/runtime/effects.py:188-194 | From every reachable state, the handler behind a keyed dispatched row is called at most once in every continuation if and only if the row is stored as non-idempotent, whatever class later requests state |
| `ToolExecution.NonIdempotentTwice` | src/rath/runtime/effects.py:188-194 | A run in which two non-idempotent requests under one run and key both have their handler called |
| `ToolExecution.SuccessIsReplayed` | src/rath/adapters/tool.py:170-171 | After a recorded success every request of that run, key, tool and arguments gets the stored result and no handler runs |
| `ToolExecution.OtherInputIsRefused` | src/rath/runtime/effects.py:188-194 | A request under a stored run and key with another tool or other arguments is refused: no row changes and no handler runs |
| `ToolExecution.AnswersMatchRequests` | src/rath/adapters/tool.py:158-203 | In every reachable state an executor that works on a row or has answered from one holds a request for its run, key, tool and arguments, and the answer is the row's result |
| `ToolExecution.StepKeeps` | src/rath/adapters/tool.py:151-242 | Every executor step keeps the call budget of every row |
| `ToolExecution.StepIsTransaction` | src/rath/runtime/effects.py:352-395 | Every executor step changes the ledger by at most one of the run protocol's ledger transactions |
| `EffectLedger.SQLiteEffectLedger.Prepare` | src/rath/runtime/effects.py:163-248 | A new key gets a new row of the request under the next sequence; a known key returns its row when tool and arguments digest agree and is a conflict that changes nothing when either differs; the effect class is not compared |
| `EffectLedger.SQLiteEffectLedger.MarkDispatched` | src/rath/runtime/effects.py:263-268 | Only a prepared row is dispatched |
| `EffectLedger.SQLiteEffectLedger.CompleteRow` | src/rath/runtime/effects.py:270-276 | Only a prepared or dispatched row succeeds |
| `EffectLedger.SQLiteEffectLedger.FailRow` | src/rath/runtime/effects.py:278-284 | Only a prepared or dispatched row fails |
| `EffectLedger.SQLiteEffectLedger.ReconcileStale` | src/rath/runtime/effects.py:286-333 | Exactly the dispatched rows not touched since are classified, by class and key, into prepared and ambiguous, and returned |
| `EffectLedger.SQLiteEffectLedger.ReadWatermark` | src/rath/runtime/effects.py:335-350 | The largest sequence of the run's succeeded rows |
| `EffectLedger.Execute` | src/rath/adapters/tool.py:151-242 | For a stored row of the key: other tool or arguments is a conflict without a call, a success is returned without a call, a prepared one is called, anything else is a conflict; without one the handler is called for a new row; the row afterwards is as the ending demands |
| `EffectLedger.ReconcileStaleEffects` | src/rath/runtime/effects.py:112-148 | Stale rows split into retryable and ambiguous, and exactly the running runs of the ambiguous ones move to review |
| `Dispatch.Confluence` | src/rath/_async/aloop.py:281-302 | For every interleaving of the per-key queues, a finished round has the resources and answers of serial execution, each runnable call handed to its tool exactly once and each other call never |
| `Dispatch.AdvanceKeeps` | src/rath/_async/aloop.py:281-299 | Every step of every queue keeps the round coherent with serial execution |
| `Dispatch.AdvanceProgresses` | src/rath/_async/aloop.py:301-302 | Every step uses up work, so every schedule ends |
| `Dispatch.QueuesHold` | src/rath/_async/aloop.py:243-276 | A key's queue holds exactly the calls of that key, in call order |
| `Dispatch.DispatchRound` | src/rath/_async/aloop.py:222-321 | Whatever the scheduling, one row per call in call order: an error naming invalid arguments (cut after 2000 characters), an unknown tool or a raising resource key, and otherwise what the tool's body gives from its arguments on the slice the last earlier call of its key left; a call is started exactly when none of the three holds; each key ends with what its last call left; writer indices are those of the rows |
| `Dispatch.SerialRowsAnswer` | src/rath/_async/aloop.py:281-299 | The serial reference itself answers call by call from arguments and slices, each body run step by step |
| `Dispatch.Stitch` | src/rath/_async/aloop.py:304-321 | One tool row per call, in call order, with the matching id and name |
| `SessionLoop.RunSessionLoop` | src/rath/_async/aloop.py:402-461 | Parallel dispatch and incremental rendering make of the transcript exactly what the simple serial loop makes; each reply answered the whole transcript before it and stands in it as its assistant row with one tool row per call; no reply but the last is without calls and done; the truncated mark is set on normal exit exactly when the last reply was not; every row reaches the writer under its index |
| `SessionLoop.SimpleShape` | src/rath/_async/aloop.py:416-449 | After any number of rounds each new assistant row is followed by exactly one tool row per call in order, the seed is untouched, and no more completions were asked for than rounds allowed |
| `SessionLoop.RenderIncremental` | src/rath/session/chunk.py:160-194 | Rendering only the new rows and appending is rendering everything |
| `SessionLoop.RenderIsFaithful` | src/rath/session/chunk.py:160-194 | The messages show the system, user, assistant and tool rows with their roles, contents, calls and call ids, each once and in order |
| `SessionLoop.Refreshed` | src/rath/_async/aloop.py:420-424 | The extended tail is the rendering of the whole transcript |
| `Streams.StepKeeps` | src/rath/backend/stream.py:197-269 | Every step of every thread (pop, raise the flag, set the outcome, lower the flag, fail one queued operation) keeps the stream invariant, all submissions, and every outcome already set |
| `Streams.NeverDeadlocks` | src/rath/backend/stream.py:160-219 | With live workers and no awaited event dropped, either everything has ended or some worker can step |
| `Streams.EarliestIsReady` | src/rath/backend/stream.py:242-269 | The witness: the earliest enqueued unfinished operation can always move |
| `Streams.WorkProgresses` | src/rath/backend/stream.py:197-219 | Every worker step, whatever the sandbox replies, uses up work, so the queues drain under any scheduling |
| `StreamOrder.HappensBeforeOrdinary` | src/rath/backend/stream.py:179-195 | At every moment of every run, without a timeout and with only ordinary exceptions on the waiting stream, once an operation after the wait has begun the wait has ended by its event and everything put on the other stream before the event has ended |
| `StreamOrder.EndedBeforeOrdinary` | src/rath/backend/stream.py:242-269 | ... and so it was before the very step in which the later operation began |
| `StreamOrder.HappensBeforeExactly` | src/rath/backend/stream.py:221-240 | In any run, once the later operation has begun, an untimed wait ended by its event if and only if it was never on the queue of a failing worker; otherwise it was dropped |
| `StreamWitnesses.ReentryLosesOrder` | src/rath/backend/stream.py:132-138 | A run in which a fatal error drops an untimed wait, the stream is entered again, and an operation after the wait begins with the event unset and the call before the event unfinished |
| `Streams.HappensBefore` | src/rath/backend/stream.py:179-195 | The part that needs no assumption: the wait has ended, an untimed one by its event or dropped, and if by its event then everything put on the other stream before the event has ended |
| `Streams.EndedBeforeBeginning` | src/rath/backend/stream.py:179-195 | ... and had ended before the very step in which the later operation began |
| `Streams.EndsInOrder` | src/rath/backend/stream.py:167-172 | Within a stream operations end in submission order; for synchronize, everything earlier has ended |
| `Streams.RunFrom` | src/rath/backend/stream.py:31-37 | Along any run a future or event that is set is never set again |
| `StreamOrder.CallsEndWithReplies` | src/rath/backend/stream.py:242-256 | Along any run a call's outcome is the reply of the one step that ended it while its worker had it in its handler, or it was dropped by a failing worker |
| `StreamHangs.DyingSettlesAll` | src/rath/backend/stream.py:221-240 | A worker that failed its queue and ended leaves none of its stream's operations unfinished |
| `StreamHangs.HangsExactly` | src/rath/backend/stream.py:106-121 | With no stream entered while its worker runs: in every reachable state an unfinished operation ends in no continuation if and only if its stream is closed with no worker, or an untimed wait at or before it awaits an event that can no longer be signalled and no unfinished call before that wait can still bring the worker down |
| `StreamHangs.DoomedForever` | src/rath/backend/stream.py:259-261 | The first half: such an operation ends in no continuation in which no stream is entered while its worker runs |
| `StreamHangs.Escapes` | src/rath/backend/stream.py:197-240 | The second half: for any other operation a continuation is constructed in which it ends |
| `StreamHangs.NoOtherDeadlock` | src/rath/backend/stream.py:197-219 | Wherever no worker can step and no stream can be entered, everything unfinished is of that kind |
| `StreamHangs.ExitLeavesNothing` | src/rath/backend/stream.py:200-202 | After a regular exit nothing put on the stream is unfinished |
| `StreamWitnesses.WaitHangs` | src/rath/backend/stream.py:221-240 | A run that reaches an untimed wait hanging on an entered, open, live stream, and an operation hanging behind it as long as the stream is not entered a second time |
| `Streams.QueryExact` | src/rath/backend/stream.py:174-177 | query says idle too early exactly while the last operation is popped and neither marked busy nor ended, by a live or a failing worker, and busy too long exactly while all has ended and the flag is still up |
| `StreamWitnesses.IdleTooEarly` | src/rath/backend/stream.py:200-203 | A run in which a live worker has popped the last operation and query says idle |
| `StreamWitnesses.IdleWhileFailing` | src/rath/backend/stream.py:228-240 | A run in which a failing worker has popped the last operation and query says idle |
| `StreamWitnesses.BusyTooLong` | src/rath/backend/stream.py:203-207 | A run in which everything has ended and query says busy |
| `StreamWitnesses.TimeoutOvertakes` | src/rath/backend/stream.py:259-267 | After a timed-out wait the next operation of the stream begins with the event still unset |
| `StreamWitnesses.TimeoutHappens` | src/rath/backend/stream.py:259-267 | A run that reaches such a state |
| `StreamRuntime.StreamSet.Enqueue` | src/rath/backend/stream.py:160-191 | A closed stream refuses and nothing changes; otherwise the operation gets the next ticket at the end of its queue, unfinished |
| `StreamRuntime.StreamSet.WaitStream` | src/rath/backend/stream.py:193-195 | Records on the other stream and waits here, in this order, with the partial effect when only this stream is closed |
| `StreamRuntime.StreamSet.Query` | src/rath/backend/stream.py:174-177 | A closed stream raises; otherwise yes means everything has ended or the last operation is popped and unmarked, no means something has not ended or the last flag is still up, and in those two moments the answer is wrong |
| `StreamRuntime.StreamSet.Close` | src/rath/backend/stream.py:140-153 | Closes once and puts the stop marker last |
| `StreamRuntime.StreamSet.Add` | src/rath/backend/stream.py:123-130 | A new stream with nothing on it |
| `StreamRuntime.StreamSet.StartWorker` | src/rath/backend/stream.py:132-138 | On a stream that no thread serves, entering is refused exactly when it is closed; one whose worker died is served again |
| `StreamRuntime.StreamSet.Advance` | src/rath/backend/stream.py:197-269 | One step of one unblocked worker, spelled out: a call ends with the value the sandbox answered or the error it raised, a wait by its event or expired, anything else signalled; a fatal error makes the worker fail its queue; a failing worker drops what it pops; and it is that step of the machine |
| `StreamRuntime.StreamSet.Drain` | src/rath/backend/stream.py:197-219 | Under any scheduling and any ordinary dispatch outcomes, workers run until everything submitted has ended, and every call that was unfinished holds what the sandbox answered it |
| `Compiler.Collect` | src/rath/definition/compiler.py:220-228 | The worklist terminates and collects exactly the nodes the entry reaches along paths |
| `Compiler.Validate` | src/rath/definition/compiler.py:192-231 | Accepts exactly the graphs with unique ids, sound nodes and nodes exactly those reachable; otherwise names the exact unreachable set or the first faulty node with the fault it has |
| `Compiler.Compile` | src/rath/definition/compiler.py:36-109 | A workflow compiles exactly when it declares nothing or exactly one entry and a sound graph; the plan carries the declared nodes in order, that entry and exactly the declared successor pairs |
| `Compiler.UniqueBySize` | src/rath/definition/compiler.py:199-201 | The size test on the id set is the uniqueness test |
| `Compiler.EdgesOf` | src/rath/definition/compiler.py:54-58 | The plan's edges are exactly the declared successor pairs |
| `Compiler.NodeProblem` | src/rath/definition/compiler.py:202-218 | No problem exactly when the timeout is preemptible, all successors are known and a router has one |
| `Compiler.AcceptedPlansAreFollowed` | src/rath/runtime/local.py:331-340 | In every history of a compiled plan submitted at its entry, a worker has at most one next node and the plan has it |
| `Compiler.StepCompletes` | src/rath/runtime/local.py:412-422 | A step of an accepted plan can complete if and only if it declares at most one successor |
| `History.ForksNeverComplete` | src/rath/runtime/local.py:418-421 | In every history a run whose next node is a step with two successors gets no further checkpoint and never succeeds |
| `Compiler.AcceptedForksNeverComplete` | src/rath/runtime/local.py:418-421 | ... also when its plan was accepted |
| `Compiler.ForkIsAccepted` | src/rath/definition/compiler.py:192-231 | A plan with a two-successor step is accepted |
| `Cursors.PagesAreExact` | src/rath/server/app.py:1154-1182 | For every page size, following next over a fixed store lists every run once in (created_at, id) order |
| `Cursors.PageSize` | src/rath/server/app.py:1159-1180 | A page shows as many rows as asked for between one and 200, and names its last row as the next cursor exactly when more follow |
| `Cursors.NextIsLater` | src/rath/runtime/sqlite.py:422-465 | What lies beyond the next cursor is exactly what the page left out |
| `Cursors.EventPagesAreExact` | src/rath/server/app.py:1296-1329 | Following the events handler's next gives exactly the log after the cursor |
| `Cursors.Read` | src/rath/runtime/sqlite.py:543-578 | The events after the cursor up to the limit; the last one's sequence is the new cursor |
| `Cursors.Yield` | src/rath/server/app.py:1367-1374 | Events go out one by one; the cursor is the last one that got through |
| `Cursors.Generate` | src/rath/server/app.py:1340-1394 | One connection, broken between any two events or reads, emits a gap-free, repeat-free stretch of the growing log |
| `Cursors.Reconnect` | src/rath/server/app.py:1331-1343 | Connections broken anywhere and resumed with the last id received concatenate to one gap-free, repeat-free stretch |
| `Cursors.ResumesAtHeader` | src/rath/server/app.py:1297-1341 | Without a header events start after the query parameter, or at the beginning; with one, right after it exactly with no, an equal, or a past-the-log query parameter |

## Left out

- SQL text, connections, migrations and JSON encoding: tables are maps, documents opaque texts, digests and request hashes injective values.
- Timestamps that are only stored (updated_at, occurred_at), trace contexts, structured logs and telemetry.
- `append_checkpoint`: the runtime never calls it.
- `transition_run` with a caller-supplied state or target: the protocol uses the targets its callers use; the class method takes any.
- Postgres lock ordering and deadlocks, and its other methods, whose row locks make each one exclusive step.
- Invocations without an idempotency key make a new row each time, so nothing is claimed across two of them.
- Ledger rows with a null sequence, written before sequences existed.
- Unicode white space in worker names: only ASCII blanks are treated as blank.
- The order in which batch methods return ids.
- Retry delays, and handlers that answer differently on a retry.
- Policy, approval, sandbox and schema checks before a tool runs, and artifact storage of large outputs.
- HTTP routing, authentication, audit, Redis signals, language model clients, sandboxes, file persistence of sessions.
- Tool bodies that reach outside the slice of their resource key, and cancellation of a dispatch round.
- Bounded stream buffers and the 120-second join timeout.
- StreamRuntime.StreamSet.StartWorker: entering a stream whose worker still runs, which would give one queue two workers, is not modelled; entering one whose worker died is.
- StreamHangs.HangsExactly: for runs in which no stream is entered while its worker runs; a second worker would serve what is queued behind a blocked wait.
- StreamHangs.DoomedForever: as HangsExactly.
- StreamWitnesses.WaitHangs: as HangsExactly.
- Worker.LocalRuntime.WorkOnce: undisturbed, so the loop's re-read of the row always finds it as it was (with interference it is Protocol.DoCheck); without a step limit, a run whose sequential execution goes on for ever is not covered, since the loop then never returns; the heartbeat is the protocol's Renew step; the plan hash comparison cannot fail because the plan id is derived from the hash.
- Asking for an interrupt with a timeout that is not positive raises; the model takes it as a handler that raises.
- Worker.LocalRuntime.LogAttempts: handlers are functions of state and decision, so a failing one fails every attempt.
- EffectLedger.Execute: one undisturbed call; interleaved calls are ToolExecution's.
- Cursors.Generate: keep-alive comments and delays; that a followed stream emits the last event before it closes is not claimed, since log and status are read separately.
- Liveness under interference: a run that is always cancelled, crashed or fenced off need not finish; that it can always still finish is Recovery.Recoverable.
