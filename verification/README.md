# The durable agent runtime, verified

A run is a conversation between a model and its tools that must survive the death of the
process driving it. Four parts make that so: a run store that commits one step at a time
under a lease, a tool ledger that records every invocation under an idempotency key, a queue
that hands long calls to worker processes at least once, and the loop that ties them together.
Their promises are about every interleaving and every crash point. This project models the
four parts in Dafny and proves those promises; it also covers the text the idempotency key
hashes and the calculator tool's bounded evaluator.

`dafny verify dfyconfig.toml` checks everything.

## How it is laid out

| files | what they hold |
|---|---|
| `Json`, `CanonicalJson`, `InvocationKey`, `PythonEquality` | JSON values, Python's canonical printer, why the printed key text identifies a call, and where that text and Python's `==` part |
| `Messages`, `RunState`, `Retry` | the conversation and its stored form, limits and usage, backoff |
| `RunStore`, `LeaseHistory`, `MemoryStore` | the store's transactions and classes, lease intervals, the in-memory stand-ins |
| `RunMachine`, `RunSafety`, `SoloRun` | one run under any number of workers as a state machine, and what every reachable state satisfies |
| `Idempotency`, `ToolLedger`, `LedgerMachine`, `TaskQueue`, `LedgerAlone` | the ledger's transactions, the claim/execute/record protocol, every interleaving of it, the queue; the protocol's code against its machine |
| `DurableRun`, `CrashTransparency`, `Overlap`, `CutShort`, `LateLoad`, `Recovery` | the run with its model, tools, ledger and queue; crashes at any point, and any number of workers at once, against the uninterrupted run; that a run can always be brought to its end |
| `DurableWait`, `LoopTrace`, `AgentLoop`, `LoopCases` | the poll schedule; the loop itself as methods proved to be runs of the state machine; what a new run asks first, and two of the loop's surprising endings |
| `Agreement`, `SoloPath`, `EndToEnd` | the loop's answers, its moves, and what a whole call of it leaves, against the uninterrupted run |
| `Calculator` | the integer fragment of the calculator tool |

Two layers describe the runtime. The classes (`PostgresRunStore`, `PostgresToolLedger`,
`FakeTaskQueue`, `AgentLoop`, and the in-memory ones) follow the code statement by statement.
The machines (`RunMachine`, `LedgerMachine`, `DurableRun`) take each store or ledger
transaction as one atomic step and let any number of workers, deliveries and crashes
interleave. They meet in three places. Store methods state, column by column, the new rows
that the functions the machines step with compute. Every state change `AgentLoop.Run` makes
is shown to be a sequence of `RunMachine` events by its worker (`LoopTrace.Follows`), so that
what holds of every reachable state of the machine holds of the code. And what
`AgentLoop.Run` leaves behind is shown to be what the uninterrupted run of
`CrashTransparency` ends with (`EndToEnd`).

What both layers read out of a turn or a ledger row, they compute by the same small functions:
the calls of a turn, its answer, a call's key, what a handler's ending becomes, the opening
message. Each of these has a statement of its own that does not use it: positions of the turn
(`CallsFound`, `AnswerJoins`), ids, steps and blocks (`KeysTellCallsApart`), status, text and
flag (`ExecuteInvocation`), the query's text (`Run`, `AsksTheQuestion`).

## Where promise and code part

* **A crash between the final commit and `finish`** leaves a run that is not terminal and
  whose conversation ends with the model's own turn. It is resumed like any other. Then the
  run does not end as it would have (`CrashTransparency.CrashesAreInvisible` is an "exactly
  when" for this reason, and `CutShort.CutShortRunFails` builds a run that ends FAILED instead
  of COMPLETED), and its next request is not well formed (`SoloRun.RequestsAreWellFormed`,
  likewise exact, and `CutShort.CutShortRequestIsMalformed` builds the run that sends it). A
  failed renewal after the final commit (loop.py:391-401) has the same effect.
* **A finished run can be driven on.** A claim is committed before the row is loaded
  (run_store.py:207-226), `run` does not look at the status it loads, and `finish` is not
  fenced (run_store.py:153-165). So a worker that claimed the run between its final commit and
  `finish`, and loads it only after both, asks again: `LateLoad.CompletedRunFails` is a
  COMPLETED run overwritten with FAILED, with no worker lost. It takes a worker that loads the
  row after its final commit: short of that, overlapping and stale workers cannot lead a run
  astray (`Overlap.OverlapIsInvisible`); and whenever one does, the run may go on to end
  otherwise than it should (`LateLoad.LoadsInTimeIsWeakest`).
* **Limits are not all frozen on the row**, although state.py:117-122 says a resumed run uses
  the limits it started with. Three have a column (models.py:84-91), and `_to_record`
  (run_store.py:382-386) leaves the step timeout, the attempts per step and the retries per run
  to their defaults: a run is loaded with the limits it was created with exactly when those
  three were the defaults (`RunStore.LimitsSurviveIffDefault`), and `RunStore.RetryLimitIsLost`
  is a run that loses one. The in-memory store keeps them all, so the two stores load alike
  exactly then (`MemoryStore.LoadsAgree`).
* **A rejected request escapes `run`** rather than failing the run, although errors.py:35-41
  says the run is failed. `run` raises exactly when the last reply was a rejection, and then the
  row is still RUNNING under the lease of a worker that has gone (`AgentLoop.AgentLoop.TakeStep`
  and `Run`; `LoopCases.RejectedRequest` is such a run).
* **The provider adapter does not use `block_from_dict`**, although messages.py says so. It
  reads a `tool_result` block as opaque where the store reads it as interpreted
  (`Messages.ProviderBlocksAreStable` says for which payloads the two agree), so that Postgres
  can commit a block it cannot read back (`Messages.OpaqueResultIsUnreadable`,
  `MemoryStore.UnreadableCommit`); and an opaque block with a null entry does not survive
  storing (`Messages.BlockRoundTrip`).
* **Keys of unequal arguments can collide** when a string spells one code point as a surrogate
  pair (`CanonicalJson.SurrogatePairCollides`). A parser never yields such a string.
* **A durable call can be reported in flight although its row is closed**: exactly when it was
  queued by this very pass, ran at once, and the wait had no time left when it was queued
  (`AgentLoop.AgentLoop.ExecuteDurable`). With a step timeout of a tenth of a second or less
  that is what happens (`LoopCases.ClosedButInFlight`).
* **Equal arguments can have different keys.** `{"n": 1}` and `{"n": 1.0}` are equal in Python
  and print differently. `PythonEquality.EqualsHaveOneText` says when: where numbers or booleans
  of different kinds meet, or the two zeros.
* **A sign before a literal too large for a double** raises an undeclared exception, because
  only the binary branch catches it (`Calculator.OversizeLiteralCrashes`); the limit on the
  input's length keeps such literals out.

## Model

| member | source | states |
|---|---|---|
| `CrashTransparency.CrashesAreInvisible` | app/core/runtime/loop.py:262-402 | However a run is crashed, paused, resumed and redelivered, one worker at a time, once it is terminal its status, answer, error, steps, stored conversation and usage are those of an independently defined uninterrupted run, exactly when no worker was lost between the final commit and `finish` |
| `CrashTransparency.LedgerHoldsWhatToolsDo` | app/core/tools/execution.py:87-138 | Over every interleaving of any number of workers, a closed ledger row is what its tool does, whoever ran it and however often; none is under review |
| `CrashTransparency.InsideHolds` | app/core/runtime/loop.py:597-745 | Through lost processes, replays and redeliveries, for any number of workers, the calls an attempt has answered so far have the results and records the uninterrupted run has, and every row is pending or holds what its tool does |
| `CrashTransparency.AnsweredCarries` | app/core/runtime/loop.py:320-401 | Given those results and records, the model's reply takes the worker to the step, or the end, the uninterrupted run takes |
| `CrashTransparency.WholeAsksAndAnswers` | app/core/runtime/loop.py:582-593 | The uninterrupted run's first request is the query in one user message and nothing else, and if it is COMPLETED its answer is every text of its last turn, joined |
| `Overlap.OverlapIsInvisible` | app/core/runtime/loop.py:262-402 | With any number of overlapping and stale workers, once the run is terminal its status, answer, error, steps, stored conversation and usage are the uninterrupted run's, if no worker loaded the row after its final commit |
| `LateLoad.LoadsInTimeIsWeakest` | app/core/runtime/loop.py:262-272 | The condition cannot be weakened: whatever schedule breaks it could, from its first load after the final commit, have gone on to a terminal row that is not the uninterrupted run's ending |
| `LateLoad.LateLoadGoesWrong` | app/core/runtime/loop.py:262-272 | From any state reached with loads in time whose final step is committed and where a worker has yet to load, that load has a continuation to such a row: with nothing left to spend it writes FAILED, otherwise it fails or commits a step too many |
| `LateLoad.CompletedRunFails` | app/adapters/db/run_store.py:153-226 | The case: a run COMPLETED as it should be is overwritten with FAILED by a worker that claimed it before `finish` and loaded it after, with no worker lost |
| `Overlap.EveryoneIsOnPath` | app/core/runtime/loop.py:523-531 | With any number of workers none of which loaded the row after its final commit, the committed steps and messages are at all times a beginning of the uninterrupted run's, and so are the steps each live worker has behind it, however stale |
| `EndToEnd.RunAsUninterrupted` | app/core/runtime/loop.py:248-402 | One whole call of the loop's code, with the registry, handlers and provider of a transparent agent, on a run that is new or has gone as it should: if it reports an end and no retry was ever charged to the run, the row loads with the uninterrupted run's status, answer, error, steps, conversation and usage, and the report has its status, answer and error; the ledger is left conforming |
| `EndToEnd.AgentIsHonest` | app/core/runtime/loop.py:406-472 | Over a ledger that conforms at the start, whatever any later attempt of the loop comes back with is the agent's reply with the tools' own results |
| `EndToEnd.NewRunIsInOrder` | app/core/runtime/loop.py:262-272 | A new run, an empty ledger and an empty queue are a state that call may start from |
| `SoloPath.StaysOnOwnPath` | app/core/runtime/loop.py:262-402 | A worker whose answers are the agent's stays, row and locals, on the uninterrupted run's path through every sequence of its own moves, until a retry is charged or a tool stops the run |
| `Agreement.TryAsUninterrupted` | app/core/runtime/loop.py:406-472 | When registry, handlers and provider are a transparent agent's and the ledger conforms, a step tried by the loop comes back with the model's response and the uninterrupted run's results and records, leaves the ledger conforming, and is stopped by no tool but for one in flight |
| `Agreement.TasksKeepRows` | app/core/tools/execution.py:87-138 | Tasks that carry their own keys, in any order and number, leave every call's row pending or holding what the agent's tool does |
| `CrashTransparency.ClaimIsExpected` | app/adapters/db/tool_ledger.py:54-69 | With no UNSAFE tool no claim is refused, and a replay repeats exactly what the tool does |
| `Recovery.NoRunIsStuck` | app/core/runtime/loop.py:248-402 | From every state such a run can reach, whatever was lost, a schedule is constructed that brings it to an end; to the uninterrupted one unless it was cut short or a worker is just then between its final commit and `finish` |
| `Recovery.HeadEnds` | app/core/runtime/loop.py:274-401 | From the loop's head, by steps left, a worker with the run to itself reaches a terminal state |
| `Recovery.AnswersAll` | app/core/runtime/loop.py:597-745 | Every call of a turn can be answered: rejected, run or replayed inline, or queued, picked up, settled and polled |
| `CutShort.CutShortRequestIsMalformed` | app/core/runtime/loop.py:387-401 | A concrete run, crashed at the same point with steps to spare, whose resumed worker sends a request that is not well formed |
| `CutShort.CutShortRunFails` | app/core/runtime/loop.py:387-401 | A concrete run, crashed between its final commit and `finish`, that ends FAILED where the uninterrupted one is COMPLETED |
| `LedgerMachine.UnsafeStartsAtMostOnce` | app/core/tools/execution.py:87-138 | Over every interleaving of inline calls, deliveries, duplicates, timeouts and crashes, an UNSAFE handler starts at most once per key |
| `LedgerMachine.ExecuteGrantedOnce` | app/adapters/db/tool_ledger.py:54-69 | EXECUTE answers at most one claim of a key, ever |
| `LedgerMachine.ClosedForGood` | app/adapters/db/tool_ledger.py:96-165 | A closed row is never PENDING again, and starts after it closed are only those of attempts already granted |
| `LedgerMachine.StartsAreAccountedFor` | app/core/tools/execution.py:110-138 | Every handler start was recorded, was lost to a crash, or is still running |
| `LedgerMachine.SerialStartsAreBounded` | app/core/tools/execution.py:87-138 | When attempts on a key do not overlap, its handler starts at most once more than it was lost to a crash before recording |
| `LedgerMachine.SerialDeliveriesAgree` | app/core/tools/execution.py:89-97 | When attempts do not overlap, every later delivery and every waiting loop is given the first recorded outcome |
| `LedgerMachine.ClaimedCallsAreNotQueued` | app/core/runtime/loop.py:727-730 | Once any worker has claimed a durable call, no pass that has yet to look queues it, on any worker or after any resume |
| `LedgerMachine.OnlyAnswersAreCollected` | app/core/runtime/loop.py:727-767 | The loop writes no ledger row on this path, and is given results only from rows closed with an answer, never from one under review |
| `LedgerMachine.SameKeySameTool` | app/core/runtime/idempotency.py:159-161 | Two calls with one key name the same tool |
| `LedgerAlone.AloneAsInCode` | app/core/tools/execution.py:51-138 | An attempt of the machine of every interleaving, taken with nothing in between, has the ledger, the handler's start and the outcome that the code's protocol leaves |
| `AgentLoop.KeysTellCallsApart` | app/core/runtime/idempotency.py:134-161 | Two calls the loop makes have one key exactly when run id, step index, tool name and arguments (up to key order) agree, said of the ids, the steps and the model's own blocks |
| `Agreement.IdsAreKeys` | app/core/runtime/idempotency.py:134-161 | Within a run the uninterrupted run tells two calls apart exactly when their keys do |
| `InvocationKey.PreimageIsExact` | app/core/runtime/idempotency.py:159-161 | The hashed text is equal for two calls exactly when run, step, tool name and arguments (up to key order at every depth) are |
| `InvocationKey.CanonicalTextIsExact` | app/core/runtime/idempotency.py:159 | The canonical text of two JSON values agrees exactly when they are structurally equal up to key order, at every depth |
| `InvocationKey.TextLeIsByCodePoint` | app/core/runtime/idempotency.py:159 | Keys are sorted by code point at the first place where they differ, a beginning before what it begins |
| `PythonEquality.EqualTextsAreEqual` | app/core/runtime/idempotency.py:159 | Values of one canonical text are equal by Python's `==` exactly when they hold no NaN |
| `PythonEquality.EqualsHaveOneText` | app/core/runtime/idempotency.py:159 | Values equal by `==` have one canonical text exactly when nowhere in them numbers or booleans of different kinds meet, nor the two zeros |
| `PythonEquality.IntegralFloat` | app/core/runtime/idempotency.py:159 | The case: an integer and a float of the same worth, under one key, are equal and have two texts |
| `CanonicalJson.PrintUnique` | app/core/runtime/idempotency.py:159 | Whitespace-free printing is uniquely readable over nested values, whatever text follows |
| `CanonicalJson.QuoteAgreesOnUtf16` | app/core/runtime/idempotency.py:159 | Two escaped strings agree exactly when their UTF-16 forms do, so exactly when the strings do if neither spells a surrogate pair |
| `CanonicalJson.SurrogatePairCollides` | app/core/runtime/idempotency.py:159 | The hypothesis is needed: two different Python strings with one canonical text |
| `CanonicalJson.PrintsLikePython` | app/core/runtime/idempotency.py:159 | The cases: an array, an object and a string as `json.dumps` prints them, without whitespace and with lower-case escapes |
| `CanonicalJson.DecimalIsWorth` | app/core/runtime/idempotency.py:160 | A number's printed digits are worth the number, and none leads idly |
| `RunSafety.IndexesAreContiguous` | app/core/runtime/loop.py:523-526 | For any number of workers, stale ones included, committed step indexes are 0 to n-1 in order, message indexes likewise, and n is within the step cap |
| `RunSafety.StoreIsTheCommittedSteps` | app/adapters/db/run_store.py:111-151 | Stored messages are the committed batches in index order, and the counters are the sums over the step rows |
| `RunSafety.OpeningStoredOnce` | app/core/runtime/loop.py:269-271 | The user message whose one text is the run's query is stored once, at position 0 |
| `RunSafety.RefusedCommitChangesNothing` | app/adapters/db/run_store.py:98-151 | A commit is refused exactly when its step is there already, and then nothing stored changes; otherwise it appends that step and batch |
| `RunSafety.TerminalIsForever` | app/adapters/db/run_store.py:139-165 | Under stale writes too, a held lease implies RUNNING and a terminal run stays terminal |
| `RunSafety.RetriesAreBounded` | app/core/runtime/loop.py:484-498 | Over a run's whole life, across all workers, at most the allowed retries are granted and at most that many longest delays of backoff asked for |
| `RunSafety.RequestsAreBounded` | app/core/runtime/loop.py:274-498 | One call of `run` makes at most one model request per step and per retry left when it loaded the run |
| `RunSafety.TakenOverWorkersStop` | app/core/runtime/loop.py:523-531 | With unique owner names, a renewal that succeeds means no other claim since; a worker taken over tries at most one more commit, then its renewal fails and it stops |
| `RunSafety.CompletionFollowsRenewal` | app/core/runtime/loop.py:387-401 | COMPLETED is written only straight after a held renewal that followed the final commit |
| `SoloRun.SoloRunInv` | app/core/runtime/loop.py:262-385 | With one live worker and a provider whose blocks the store keeps exactly, its steps, usage and messages equal the stored ones plus what is pending, in every reachable state |
| `SoloRun.RequestsAreWellFormed` | app/core/runtime/loop.py:269-385 | With one live worker and a provider whose blocks the store keeps exactly, a request is the stored conversation plus what is pending; and it opens with the run's query, alternates, and follows each turn of the model by one message with one result for every tool call of that turn, wherever in it the call stands, in the same order and with its id, exactly when every committed step was a tool turn |
| `SoloRun.ConversationShape` | app/core/runtime/loop.py:351-385 | A stored conversation is a well-formed request exactly when all its steps are tool turns |
| `SoloRun.SpendingStaysWithinBudget` | app/core/runtime/policy.py:62-99 | With one live worker and a provider that honours `max_tokens`, whatever its blocks, tokens committed over all resumes pass the budget by the last step's input at most |
| `RunState.OvershootIsOneInput` | app/core/runtime/policy.py:86-99 | An allowed, clamped step overshoots by its input tokens at most |
| `RunState.MaxTokensForNextStep` | app/core/runtime/policy.py:86-99 | The lesser of the output cap and what is left of the budget: within both, and equal to one |
| `LeaseHistory.LeasesNeverOverlap` | app/adapters/db/run_store.py:195-311 | For every sequence of claims, renewals, releases and finishes by any owners, granted lease intervals never overlap, and a live lease is the one that covers now |
| `RunStore.PostgresRunStore.Commit` | app/adapters/db/run_store.py:98-151 | Exactly if a step row with its index is there, or a message row with one its messages would get, nothing; else the step row, the messages numbered on from the last under its index, the sums of usage, one more step taken, RUNNING if it was QUEUED, and no other column |
| `RunStore.PostgresRunStore.Claim` | app/adapters/db/run_store.py:195-226 | Taken exactly when the run is not terminal and its lease, if any, has expired; then RUNNING under the new lease |
| `RunStore.PostgresRunStore.ClaimNextReclaimable` | app/adapters/db/run_store.py:228-271 | Takes the oldest claimable run, and none only if there is none |
| `RunStore.PostgresRunStore.Renew` | app/adapters/db/run_store.py:273-293 | Held exactly when the owner's lease is still live; then extended from now |
| `RunStore.PostgresRunStore.Release` | app/adapters/db/run_store.py:295-311 | Gives back the owner's own lease, and touches no other |
| `RunStore.PostgresRunStore.FinishRun` | app/adapters/db/run_store.py:153-165 | Writes the outcome and drops the lease, whoever holds it; an unknown run is RunNotFound and nothing changes |
| `RunStore.PostgresRunStore.ChargeRetry` | app/adapters/db/run_store.py:167-186 | Returns the total it has just stored; an unknown run is RunNotFound and nothing changes |
| `RunStore.PostgresRunStore.LoadRun` | app/adapters/db/run_store.py:369-426 | The record has every step row and every message row, ordered by index, whatever order they are stored in, the counters as they are, and 3, 6 and 60 seconds for the limits without a column; an unreadable row or an unknown run is an error |
| `RunStore.LimitsSurviveIffDefault` | app/adapters/db/run_store.py:369-386 | A new run is loaded with the limits it was created with exactly when its attempts per step, retries per run and step timeout were the defaults |
| `RunStore.RetryLimitIsLost` | app/adapters/db/run_store.py:382-386 | The case: a run created with one retry is loaded with six |
| `MemoryStore.CommitsAgree` | app/adapters/db/memory.py:93-118 | The in-memory commit is accepted exactly when Postgres accepts and the messages can be read back; what both then hold agrees exactly when the step is the next one and the run was QUEUED or RUNNING |
| `MemoryStore.UnreadableCommit` | app/adapters/db/memory.py:101-110 | Messages that cannot be read back: the in-memory store refuses them, Postgres commits them and can never load the run again |
| `MemoryStore.CreatesAgree` | app/adapters/db/memory.py:60-85 | A run created in both stores is held alike by both, but for the limits the table has no column for |
| `MemoryStore.LoadsAgree` | app/adapters/db/memory.py:87-91 | A run held alike by both is loaded alike exactly when those limits are the defaults |
| `MemoryStore.InMemoryRunStore.Create` | app/adapters/db/memory.py:60-85 | Keeps every limit it is given |
| `MemoryStore.InMemoryRunStore.Load` | app/adapters/db/memory.py:87-91 | Gives back the record as it is held, or RunNotFound |
| `MemoryStore.ClaimsAgree` | app/adapters/db/memory.py:140-162 | Claims and scans are answered alike except for a live lease of the same owner and a lease that expires at this moment |
| `MemoryStore.OthersAgree` | app/adapters/db/memory.py:120-182 | Renewal, release, finish and retry agree always |
| `MemoryStore.InMemoryRunStore.CommitStep` | app/adapters/db/memory.py:93-118 | Refuses a step that is there, else appends it with its messages read back from the wire, and sets RUNNING |
| `MemoryStore.InMemoryRunStore.Claim` | app/adapters/db/memory.py:140-153 | Taken unless the run is terminal or another owner's lease is live |
| `MemoryStore.InMemoryToolLedger.Begin` | app/adapters/db/memory.py:206-232 | Claims a new key, answers a known one by its row |
| `MemoryStore.InMemoryToolLedger.Complete` | app/adapters/db/memory.py:242-247 | Closes the row and logs the execution |
| `Messages.ReadsPayloads` | app/core/runtime/messages.py:183-208 | The stored dictionaries that are read as text, tool_use and tool_result blocks; an absent error flag is false, any other is taken by its truth value |
| `Messages.BlockRoundTrip` | app/core/runtime/messages.py:183-220 | A block survives the stored form unchanged exactly when it is not an opaque block with a null entry or an interpreted type |
| `Messages.ConversationRoundTrip` | app/core/runtime/messages.py:183-220 | A conversation of such blocks is read back as it was stored |
| `Messages.OpaqueResultIsUnreadable` | app/core/runtime/messages.py:193-208 | The case: a `tool_result` payload without its fields is a block to the adapter, and cannot be read back from the store |
| `Messages.ProviderBlocksAreStable` | app/adapters/llm/anthropic_client.py:176-198 | What the adapter reads is what the store reads back exactly when the block is not a `tool_result` |
| `ToolLedger.PostgresToolLedger.Begin` | app/adapters/db/tool_ledger.py:36-69 | A new key is claimed with EXECUTE; a known one changes nothing: an answer is replayed, review refused, and a PENDING row refused for an UNSAFE tool and executed again for any other |
| `ToolLedger.PostgresToolLedger.Complete` | app/adapters/db/tool_ledger.py:96-115 | Closes the row if there is one, whatever it said |
| `ToolLedger.PostgresToolLedger.MarkNeedsReview` | app/adapters/db/tool_ledger.py:147-165 | Closes the row for review if there is one |
| `ToolLedger.ExecuteInvocation` | app/core/tools/execution.py:51-138 | A call with no row, or one left PENDING by a tool that is not UNSAFE, starts its handler once: what it returns, whole up to 8000 characters, leaves SUCCEEDED with that text and no error, what it declares leaves FAILED with that message as an error, what it raises leaves FAILED as an error and is then reported as a crash. An answered row is given again; a PENDING one of an UNSAFE tool, or one under review, ends NEEDS_REVIEW; in neither case does a handler start. No other row changes, and a call that is not registered or not accepted changes none |
| `ToolLedger.RunAndRecord` | app/core/tools/execution.py:110-138 | One handler start; the row and the answer have the status, text and error flag its ending calls for, and a raise is recorded before it is reported |
| `Idempotency.Truncate` | app/core/tools/execution.py:129-133 | A result within the cap is kept whole; a longer one keeps its first 8000 characters and a mark |
| `TaskQueue.FakeTaskQueue.EnqueueTool` | app/adapters/queue/fake_task_queue.py:79-98 | An accepted call is logged, and run at once or kept; an unreachable broker records nothing |
| `TaskQueue.FakeTaskQueue.DeliverAll` | app/adapters/queue/fake_task_queue.py:100-104 | Runs what is queued, in order, and leaves the ledger and the handler starts as those runs do |
| `TaskQueue.FakeTaskQueue.Redeliver` | app/adapters/queue/fake_task_queue.py:106-114 | Runs a delivered call once more |
| `TaskQueue.RedeliveryChangesNothing` | app/adapters/queue/fake_task_queue.py:106-135 | Delivering twice leaves what delivering once leaves, whatever the ledger said |
| `TaskQueue.DeliveriesSettle` | app/adapters/queue/fake_task_queue.py:100-135 | Any sequence of deliveries closes every runnable call it is given, adds no other row, and changes no answered one |
| `TaskQueue.OneStartPerKey` | app/adapters/queue/fake_task_queue.py:100-135 | However many serial deliveries a call gets, its handler starts at most once more |
| `DurableWait.DeadlineBeforeTimeout` | app/core/runtime/loop.py:445-451 | The wait ends strictly before the step's hard timeout exactly when that timeout is positive, and is empty exactly up to 0.1 seconds |
| `DurableWait.WaitBudget` | app/core/runtime/loop.py:445-451 | The wait may take the timeout less a twentieth of it or a tenth of a second, whichever is more, and never less than nothing |
| `DurableWait.WaitIsBounded` | app/core/runtime/loop.py:732-743 | If each sleep lasts at least as asked, a wait of w seconds takes at most 5 + ceil(max(0, w - 3.1) / 2) sleeps |
| `DurableWait.PunctualSleeps` | app/core/runtime/loop.py:732-743 | With punctual sleeps that bound is met |
| `DurableWait.SleepsDwindle` | app/core/runtime/loop.py:732-743 | Each sleep leaves fewer to come and asks for no more than what remains |
| `LoopTrace.FollowsByEvents` | app/core/runtime/loop.py:262-402 | The relation the loop's methods are specified by is reachability by the worker's own events |
| `LoopTrace.StaysSolo` | app/core/runtime/loop.py:262-402 | A worker alone in step with the store stays so whatever it does |
| `LoopTrace.HeadIsWellFormed` | app/core/runtime/loop.py:269-297 | What a lone worker sends from the loop's head is a well-formed request |
| `LoopTrace.LoadOpens` | app/core/runtime/loop.py:582-593 | A run that can be loaded has stored messages exactly if it has a step, and the first of them is its query, for any number of workers before |
| `AgentLoop.AgentLoop.Run` | app/core/runtime/loop.py:248-402 | Terminates; is a sequence of the machine's events by its worker; asks the model at most once per step and retry left at the claim; every request opens with the run's query, and the first one about a run with no steps is that alone; each way of ending has its cause: the last reply, the limits, the retry counter, the lease, or, for the endings by a tool, a call of the last reply whose row is under review, whose handler raised as its row records, or that was in flight when the wait's budget had run out; a COMPLETED run's answer is every text block of the last reply joined; it raises exactly when the last reply was a rejected request, and the row is then still RUNNING under its lease; what it reports is what the row says; and every request of a lone worker on a run of tool turns is well formed, if its provider's blocks keep. What is known of its answers is a parameter: no more than that blocks keep (`KeepingIsHonest`), or that they are an agent's (`EndToEnd.AgentIsHonest`) |
| `AgentLoop.KeepingIsHonest` | app/core/runtime/loop.py:320-385 | With a provider whose blocks the store keeps, the loop says nothing but such blocks |
| `LoopCases.AsksTheQuestion` | app/core/runtime/loop.py:582-593 | From end to end: a run created with a query and driven within budget asks the model first exactly that query, as one user message with one text block, and every later request opens with it |
| `AgentLoop.RouteIsRight` | app/core/runtime/loop.py:664-670 | A call is rejected as unknown exactly when no registered name is the one it spells, rejected for its input when the tool of that name does not accept it, and goes to that tool otherwise |
| `LoopCases.RejectedRequest` | app/core/runtime/errors.py:35-41 | The case: a run whose provider rejects its request ends its worker with that error, and is RUNNING under that worker's lease |
| `LoopCases.ClosedButInFlight` | app/core/runtime/loop.py:727-745 | The case: with a step timeout of at most a tenth of a second, a new durable call that runs when queued is reported in flight with its row closed |
| `AgentLoop.AgentLoop.TakeStep` | app/core/runtime/loop.py:274-401 | One time round: the model is asked exactly when a step and 1024 tokens are left; every request is the conversation with the lesser of the output cap and what is left of the budget; the loop comes round only with one more committed tool turn, the reply verbatim and one result for each of its calls, recorded under the number of requests it took, and the lease held; what it reports at an end is the conversation, steps and usage up to there; within budget it raises exactly when the last reply is a rejected request, and then the row is still RUNNING under this worker's lease |
| `AgentLoop.AgentLoop.Conclude` | app/core/runtime/loop.py:320-401 | The stop reason decides: refusal and truncation fail and report what was spent; a tool turn is committed verbatim with all its results under the attempt it took, and goes on; a final turn is committed and completes, with the conversation, the step, the sums of usage and, as the answer, every text block of the turn joined |
| `Messages.AnswerJoins` | app/core/runtime/loop.py:785-794 | The answer is the one text that falls, block by block, into each text block's own text and nothing for any other block |
| `AgentLoop.AgentLoop.AttemptStep` | app/core/runtime/loop.py:406-498 | Terminates by attempts left; repeats one request; every retry was charged to the run first; it pauses only when all attempts are spent and fails only when the run's retries are; a result carries one answer per call as the ledger has it |
| `AgentLoop.AgentLoop.AttemptOnce` | app/core/runtime/loop.py:440-498 | One attempt: one request; no sleep in a wait for its tools runs past the wait's budget from the attempt's start; a failed one is charged to the run before it is repeated and then sleeps exactly the policy's delay for the attempt to come |
| `AgentLoop.AgentLoop.ChargeFailure` | app/core/runtime/loop.py:474-498 | Out of attempts pauses uncharged, out of retries fails, otherwise one retry is charged and granted and exactly the policy's delay is slept |
| `AgentLoop.AgentLoop.Commit` | app/core/runtime/loop.py:502-531 | Commits, swallows a duplicate, and goes on exactly when the renewal that follows is held |
| `AgentLoop.AgentLoop.Finish` | app/core/runtime/loop.py:533-552 | The terminal outcome is the row's, and the lease is gone |
| `AgentLoop.AgentLoop.Pause` | app/core/runtime/loop.py:554-580 | A run whose lease is still this worker's is PAUSED with no lease; one taken over is left alone |
| `AgentLoop.AgentLoop.ExecuteAll` | app/core/runtime/loop.py:597-628 | If all calls come back: for every tool_use block of the turn, at any position, one result with its id and one record with its id, name, success and detail, in the same order, each still what the ledger says at the end; no row or answer is lost and nothing that had a row is queued |
| `Messages.CallsFound` | app/core/runtime/loop.py:464 | The calls read out of a turn are the tool_use blocks at all of its positions that hold one, in order |
| `RunMachine.AnswersEach` | app/core/runtime/loop.py:464-468 | A turn is answered, one result for every position that holds a call, exactly when there is one result for each call the loop reads out of it, in order and with its id |
| `AgentLoop.AgentLoop.ExecuteOne` | app/core/runtime/loop.py:630-685 | A bad call touches neither ledger nor queue and is answered as an error. An accepted one goes by its own run, step, name and arguments. Inline, its handler starts exactly if it has no row or one left PENDING by a tool that is not UNSAFE, so always if every row there is belongs to other calls; the model then reads the returned text without the error flag, or the declared message with it, under the call's id, the step records the same, and a raise is a tool bug; an answered call is given its row's text and flag and starts nothing; any other is for review. A durable one is queued only if it has no row, changes by deliveries alone, and is answered with its closed row's text and flag |
| `AgentLoop.AgentLoop.ExecuteInline` | app/core/runtime/loop.py:665-685 | An inline call the registry accepts: claimed, run and recorded here, or answered from its row; the result, the record and the handler's start are what the row it found and the handler's ending call for |
| `AgentLoop.AgentLoop.ExecuteDurable` | app/core/runtime/loop.py:687-745 | Queues exactly when there is no row; writes no row itself; a row closed before the call answers it at once, without a sleep, or stops it if it is under review; answers only from a row closed with an answer; reports in flight only past the deadline, and with the row already closed exactly when the call had no row, is runnable, the queue ran it at once and the deadline had passed before; sleeps no more often than the schedule allows and never past the deadline |
| `AgentLoop.AgentLoop.AwaitRow` | app/core/runtime/loop.py:732-743 | The poll loop ends, by the number of sleeps left, with a closed row or past the deadline |
| `Retry.WindowDoubles` | app/core/runtime/retry.py:40-55 | The first window is the base, each next one twice the last, none above the cap |
| `Retry.DelaysFillTheWindow` | app/core/runtime/retry.py:40-55 | Full jitter: the draw spreads the delay over exactly the window, and a first attempt waits for nothing |
| `Retry.BackoffPolicy.DelayFor` | app/core/runtime/retry.py:40-55 | A delay is never negative and never above the cap |
| `Calculator.AcceptedIffExact` | app/core/tools/builtin/calculator.py:71-125 | An integer expression is accepted with a value exactly when that is its mathematical value, every operator's result fits a double and every exponent is within the cap |
| `Calculator.DivModFloors` | app/core/tools/builtin/calculator.py:32-40 | Division and remainder are Python's: the floor of the real quotient and what it leaves |
| `Calculator.AcceptedValuesFit` | app/core/tools/builtin/calculator.py:93-125 | With literals that fit, accepted values fit and no undeclared exception is raised |
| `Calculator.PeakIsBounded` | app/core/tools/builtin/calculator.py:93-110 | With literals that fit, no integer computed on the way, kept or refused, reaches 2 ** 65536 |
| `Calculator.LimitIsDouble` | app/core/tools/builtin/calculator.py:93-110 | What is too large is what rounds past the largest double, 53 bits of ones at the top exponent |
| `Calculator.OversizeLiteralCrashes` | app/core/tools/builtin/calculator.py:84-88 | A sign before a literal raises exactly when the literal is too large for a double; the binary branch refuses it instead |

## Left out

- SHA-256: a key is the text that is hashed, so collisions of the digest are assumed away.
- JSONB's own rewriting of key order and number spelling: a stored value is taken to come back structurally equal up to key order.
- PythonEquality.EqualTextsAreEqual: Python's containers compare their items by identity first, so lists sharing one NaN object are equal; here no NaN equals anything.
- PythonEquality.EqualsHaveOneText: what a float's printed text is worth is a parameter, with the one hypothesis that only the two zeros share a worth.
- Database isolation beyond one atomic step per transaction, `SKIP LOCKED` scheduling, and the clock's resolution; the database clock is an integer that never goes back.
- Claiming and loading are two transactions, in the model as in the code; the recovery scan takes a lease exactly as `claim` does and has no event of its own in `RunMachine`.
- AgentLoop.AgentLoop.Run: other workers do not interleave inside one call of the method, whose steps are tied to `RunMachine` instead, where they do; a step timeout strikes in the model request, not inside a tool call, which `LedgerMachine` covers as a crash of the attempt; and the owner's name is one not used on the run before.
- AgentLoop.AgentLoop.ExecuteDurable: what the queue's worker does while the loop sleeps is delivery of everything undelivered, or nothing.
- AgentLoop.AgentLoop.ExecuteDurable: the key is computed by its caller, which computes it for both execution modes.
- AgentLoop.AgentLoop.AttemptStep: the jitter, the replies and the passing of time are functions fixed in advance.
- EndToEnd.RunAsUninterrupted: a run that was charged a retry records the attempt in its step, so its steps are not the uninterrupted run's; and other workers stand still during the call, as in `AgentLoop.AgentLoop.Run`.
- CrashTransparency.CrashesAreInvisible: transport failures, timeouts and retries are outside it, as the promise has it; that the end can be reached is `Recovery.NoRunIsStuck`.
- DurableRun: a claimed call may have its outcome recorded at any later time and any number of times, which allows more than queue workers and lost processes do.
- LedgerMachine: `lookup` and each ledger statement are atomic; a crash is the loss of one attempt.
- The wording of refusals, review reasons and truncation marks; only the tool's name, or that there is a mark, is kept.
- Pydantic validation and JSON Schema generation: a predicate on arguments.
- Floating point: in the calculator every real-valued result is `Beyond`, of which nothing is said; times in the poll schedule and backoff are exact.
- Parsing in the calculator: expressions are trees, and the bound on literals that the input's length gives is a hypothesis.
- The provider client, prompts, settings, HTTP surface, Celery, session handling, migrations, tenants, parent runs and idempotent creation.
