/** What a new run asks first; and two endings of `run` that its documentation does not promise, each as a case. */
module LoopCases {
  import opened Wrappers
  import opened Json
  import opened Messages
  import opened RunState
  import opened RunStore
  import RunMachine
  import LoopTrace
  import opened Idempotency
  import opened ToolLedger
  import opened TaskQueue
  import opened Retry
  import opened DurableWait
  import opened AgentLoop

  const BACKOFF := BackoffPolicy(0.5, 30.0)

  /** A provider that rejects every request. */
  function Reject(n: nat, request: Request): Reply { BadRequest }

  /** A loop with no tools over a store with one new run, and that provider. */
  method Rejecting(query: Text, limits: RunLimits) returns (loop: AgentLoop)
    ensures loop.Valid() && fresh(loop) && fresh(loop.llm) && fresh(loop.store) && fresh(loop.absence)
    ensures fresh(loop.ledger) && fresh(loop.tools) && fresh(loop.queue) && fresh(loop.clock)
    ensures loop.store.runs == map[0 := NewRow(query, limits)] && loop.store.now == 0
    ensures loop.llm.requests == [] && loop.llm.replies == Reject
    ensures loop.backoff == BACKOFF && loop.leaseTtl == 60
  {
    var store := new PostgresRunStore(0);
    store.Create(0, query, limits);
    var ledger := new PostgresToolLedger();
    var tools := new Handlers((n, call) => Returned([]));
    var queue := new FakeTaskQueue(map[], ledger, tools, Immediate);
    var llm := new LanguageModel(Reject);
    var clock := new Clock(n => 0, n => false);
    var absence := new Absence(n => 0);
    loop := new AgentLoop(llm, store, queue, clock, absence, BACKOFF, n => 0.0, 60);
  }

  /** A new run can be claimed, and what is loaded has spent nothing. */
  lemma NewRunOpens(c: RunMachine.Config)
    ensures var w := RunMachine.Start(c);
            && LoopTrace.Reached(c, w) && w.workers == map[]
            && w.row == NewRow(c.query, c.requested) && Claimable(w.row, 0)
            && Load(w.row).Ok? && Load(w.row).value.usage == RunUsage(0, 0, 0, 0)
  {
    LimitsSurviveIffDefault(c.query, c.requested);
  }

  /** The machine's clock may have moved on before anything else does. */
  lemma LaterIsReached(c: RunMachine.Config, now: int)
    requires now >= 0
    ensures LoopTrace.Reached(c, RunMachine.Start(c).(now := now))
  {
    forall p: RunMachine.World -> bool | p(RunMachine.Start(c)) && LoopTrace.KeptByAll(c, p)
      ensures p(RunMachine.Start(c).(now := now))
    {
      assert RunMachine.Apply(c, RunMachine.Start(c), RunMachine.Tick(now)) == RunMachine.Start(c).(now := now);
    }
  }

  /** `run` on a run that can be claimed and loaded: what it asks, and whether it asks at all. */
  method RunAsks(loop: AgentLoop, id: RunId, owner: Owner, ghost d: LoopTrace.Driver, ghost w: RunMachine.World)
    returns (r: Result<RunOutcome, LoopError>)
    requires loop.Valid() && loop.Driving(d, owner) && LoopTrace.Reached(d.c, w) && owner !in w.workers
    requires loop.Tied(id, w) && Claimable(w.row, w.now) && Load(w.row).Ok?
    requires Honest(d, loop.Tools(), loop.llm.replies, id, loop.Now())
    modifies loop.llm, loop.store, loop.absence, loop.ledger, loop.tools, loop.queue, loop.clock, loop`ran
    ensures Asks(w.row, old(loop.llm.requests), loop.llm.requests)
    ensures |loop.llm.requests| > |old(loop.llm.requests)| <==> MayStep(d.c.limits, Load(w.row).value.usage)
  {
    ghost var v;
    r, v := loop.Run(id, owner, d, w);
  }

  /**
   * A run is created with a question and driven: within budget the model is asked at once,
   * and the first request is that question in one user message and nothing else; so does
   * every later request open.
   */
  method AsksTheQuestion(loop: AgentLoop, id: RunId, query: Text, limits: RunLimits, owner: Owner)
    returns (r: Result<RunOutcome, LoopError>)
    requires loop.Valid() && id !in loop.store.runs && loop.store.now >= 0
    modifies loop.llm, loop.store, loop.absence, loop.ledger, loop.tools, loop.queue, loop.clock, loop`ran
    ensures var before, after := old(loop.llm.requests), loop.llm.requests;
            && before <= after
            && (limits.maxSteps >= 1 && limits.tokenBudget >= 1024 ==>
                  |after| > |before| && after[|before|].messages == [Message(User, [TextBlock(query)])])
            && forall i :: |before| <= i < |after| ==>
                 |after[i].messages| > 0 && after[i].messages[0] == Message(User, [TextBlock(query)])
  {
    loop.store.Create(id, query, limits);
    ghost var c := RunMachine.Config(query, limits, loop.leaseTtl, loop.backoff);
    ghost var d := LoopTrace.Driver(c, owner, _ => true);
    ghost var w := RunMachine.Start(c).(now := loop.store.now);
    NewRunOpens(c);
    LaterIsReached(c, loop.store.now);
    r := RunAsks(loop, id, owner, d, w);
  }

  /**
   * The error of a rejected request escapes `run`, and the run is not failed: it stays
   * RUNNING under the lease of a worker that has gone.
   */
  method RejectedRequest(query: Text, limits: RunLimits, owner: Owner)
    returns (r: Result<RunOutcome, LoopError>, status: RunStatus, held: bool)
    requires MayStep(limits.AsStored().AsLoaded(), RunUsage(0, 0, 0, 0))
    ensures r == Err(LLMRequestError) && status.Running? && held
  {
    var loop := Rejecting(query, limits);
    ghost var d := LoopTrace.Driver(RunMachine.Config(query, limits, 60, BACKOFF), owner, _ => true);
    ghost var w := RunMachine.Start(d.c);
    ghost var v;
    NewRunOpens(d.c);
    assert 0 in loop.store.runs && Claimable(loop.store.runs[0], loop.store.now);
    r, v := loop.Run(0, owner, d, w);
    status, held := loop.store.runs[0].status, HeldBy(loop.store.runs[0], owner);
  }

  /**
   * With no more than a tenth of a second for a step, a durable call nobody has claimed is
   * reported as in flight although it was run, and its row closed, the moment it was queued.
   */
  method ClosedButInFlight(loop: AgentLoop, call: Call, key: Key, use: Block, stepTimeout: real)
    returns (r: Result<Answer, Signal>)
    requires loop.Valid() && use.ToolUseBlock? && stepTimeout <= INFLIGHT_RESERVE_FLOOR_SECONDS
    requires key !in loop.ledger.rows && loop.queue.mode.Immediate?
    requires Runnable(loop.registry, TaskData(call, key))
    modifies loop.ledger, loop.tools, loop.queue, loop.clock, loop`ran
    ensures r == Err(ToolInFlight) && Settled(loop.Ledger(), key)
  {
    DeadlineBeforeTimeout(stepTimeout);
    r := loop.ExecuteDurable(call, key, use, loop.clock.time + WaitBudget(stepTimeout));
  }
}
