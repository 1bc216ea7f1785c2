/**
 * Where the loop's code meets the uninterrupted run. If the registry, the handlers and the
 * provider are those of a transparent agent, the answers an attempt comes back with are the
 * ones `CrashTransparency` computes for that agent, whatever the ledger held from attempts
 * before it and whichever process ran the calls.
 */
module Agreement {
  import opened Json
  import CanonicalJson
  import opened InvocationKey
  import opened Messages
  import opened RunState
  import opened RunStore
  import opened Idempotency
  import opened ToolLedger
  import opened TaskQueue
  import RunMachine
  import LoopTrace
  import DurableRun
  import CrashTransparency
  import opened AgentLoop

  // --- One agent, two descriptions ---------------------------------------------------

  /** The registry answers this call, and its handler does, what the agent's tool does. */
  ghost predicate SameTool(a: DurableRun.Agent, rig: Rig, id: RunId, stepIdx: nat, use: Block)
    requires use.ToolUseBlock?
  {
    var tool := a.tool(DurableRun.IdOf(stepIdx, use));
    match RouteOf(rig.registry, use)
    case Rejected(why) => tool == DurableRun.Unusable(Explain(why))
    case Routed(name, spec) =>
      && tool.Usable? && tool.effect == spec.effect && tool.durable == spec.durable
      && forall n :: rig.behaviour(n, CallOf(id, stepIdx, name, use)) == tool.does
  }

  ghost predicate SameTools(a: DurableRun.Agent, rig: Rig, id: RunId) {
    forall stepIdx: nat, use: Block :: use.ToolUseBlock? && Valid(use.input) ==> SameTool(a, rig, id, stepIdx, use)
  }

  /** The provider, when it replies, replies as the agent's model does. */
  ghost predicate Speaks(a: DurableRun.Agent, replies: (nat, Request) -> Reply) {
    forall n, r :: replies(n, r).Replied? ==> replies(n, r).response == a.model(r.messages, r.maxTokens)
  }

  // --- The ledger holds what the tools do --------------------------------------------

  /** If this call has a row, it is pending or holds what the agent's tool does. */
  predicate ConformsAt(a: DurableRun.Agent, registry: Registry, id: RunId, t: Trace, stepIdx: nat, use: Block)
    requires use.ToolUseBlock?
  {
    var route := RouteOf(registry, use);
    route.Routed? ==>
      var key, tool := KeyOf(CallOf(id, stepIdx, route.tool, use)), a.tool(DurableRun.IdOf(stepIdx, use));
      key in t.rows ==> t.rows[key] == PENDING_ROW || (tool.Usable? && t.rows[key] == RecordOf(tool.does))
  }

  ghost predicate Conforms(a: DurableRun.Agent, registry: Registry, id: RunId, t: Trace) {
    forall stepIdx: nat, use: Block ::
      use.ToolUseBlock? && Valid(use.input) ==> ConformsAt(a, registry, id, t, stepIdx, use)
  }

  /** A task with this call's key is this call, its arguments in another order of keys at most. */
  lemma TaskIsCall(registry: Registry, id: RunId, stepIdx: nat, use: Block, d: TaskData)
    requires Named(registry) && use.ToolUseBlock? && Valid(use.input) && RouteOf(registry, use).Routed?
    requires Keyed(d) && d.key == KeyOf(CallOf(id, stepIdx, RouteOf(registry, use).tool, use))
    ensures var other := use.(input := d.call.args);
            && d.call == CallOf(id, stepIdx, RouteOf(registry, use).tool, other)
            && Valid(other.input) && DurableRun.IdOf(stepIdx, other) == DurableRun.IdOf(stepIdx, use)
  {
    var call := CallOf(id, stepIdx, RouteOf(registry, use).tool, use);
    CanonicalJson.DecimalDigits(id);
    PreimageIsExact(call.runId, call.stepIdx, call.tool, call.args,
                    d.call.runId, d.call.stepIdx, d.call.tool, d.call.args);
    CanonicalTextIsExact(call.args, d.call.args);
  }

  lemma TaskKeepsRow(a: DurableRun.Agent, rig: Rig, id: RunId, t: Trace, d: TaskData, stepIdx: nat, use: Block)
    requires CrashTransparency.Transparent(a) && SameTools(a, rig, id) && Named(rig.registry) && Keyed(d)
    requires use.ToolUseBlock? && Valid(use.input) && ConformsAt(a, rig.registry, id, t, stepIdx, use)
    ensures ConformsAt(a, rig.registry, id, AfterTask(rig.registry, rig.behaviour, t, d), stepIdx, use)
  {
    var route := RouteOf(rig.registry, use);
    if route.Routed? && Runnable(rig.registry, d) && d.key == KeyOf(CallOf(id, stepIdx, route.tool, use)) {
      var other := use.(input := d.call.args);
      TaskIsCall(rig.registry, id, stepIdx, use, d);
      assert SameTool(a, rig, id, stepIdx, use) && SameTool(a, rig, id, stepIdx, other);
      assert RouteOf(rig.registry, other) == route;
    }
  }

  lemma {:induction false} TasksKeepRows(a: DurableRun.Agent, rig: Rig, id: RunId, t: Trace, ds: seq<TaskData>)
    requires CrashTransparency.Transparent(a) && SameTools(a, rig, id) && Named(rig.registry) && AllKeyed(ds)
    requires Conforms(a, rig.registry, id, t)
    ensures Conforms(a, rig.registry, id, AfterTasks(rig.registry, rig.behaviour, t, ds))
  {
    if |ds| > 0 {
      var before := AfterTasks(rig.registry, rig.behaviour, t, ds[..|ds| - 1]);
      TasksKeepRows(a, rig, id, t, ds[..|ds| - 1]);
      forall stepIdx: nat, use: Block | use.ToolUseBlock? && Valid(use.input)
        ensures ConformsAt(a, rig.registry, id, AfterTasks(rig.registry, rig.behaviour, t, ds), stepIdx, use)
      {
        TaskKeepsRow(a, rig, id, before, ds[|ds| - 1], stepIdx, use);
      }
    }
  }

  /** Within a run the agent tells calls apart just as their keys do. */
  lemma IdsAreKeys(registry: Registry, id: RunId, stepIdx: nat, use: Block, stepIdx': nat, use': Block)
    requires Named(registry) && use.ToolUseBlock? && use'.ToolUseBlock? && Valid(use.input) && Valid(use'.input)
    requires RouteOf(registry, use).Routed? && RouteOf(registry, use').Routed?
    ensures DurableRun.IdOf(stepIdx, use) == DurableRun.IdOf(stepIdx', use')
            <==> KeyOf(CallOf(id, stepIdx, RouteOf(registry, use).tool, use))
                 == KeyOf(CallOf(id, stepIdx', RouteOf(registry, use').tool, use'))
  {
    KeysTellCallsApart(registry, id, stepIdx, use, id, stepIdx', use');
    CanonicalTextIsExact(use.input, use'.input);
  }

  // --- What the loop is told ---------------------------------------------------------

  lemma ToldIsOutcome(a: DurableRun.Agent, rig: Rig, id: RunId, t: Trace, stepIdx: nat, use: Block, answer: Answer)
    requires use.ToolUseBlock? && Valid(use.input) && SameTool(a, rig, id, stepIdx, use)
    requires ConformsAt(a, rig.registry, id, t, stepIdx, use)
    requires Tells(rig.registry, t, id, stepIdx, use, answer)
    ensures var o := CrashTransparency.ToolOutcome(a, DurableRun.IdOf(stepIdx, use));
            answer == AnswerWith(use, Recorded(o), o.isError)
  {
  }

  /** The calls of a response, if it asks for any. */
  function UsesOf(response: Response): (uses: seq<Block>)
    ensures forall u | u in uses :: u.ToolUseBlock?
  {
    if response.stop.ToolUse? then ToolUses(response.content) else []
  }

  /** The results and the records of the uninterrupted run. */
  predicate AsUninterrupted(a: DurableRun.Agent, stepIdx: nat, response: Response, answers: seq<Answer>) {
    && ResultsOf(answers) == CrashTransparency.Results(a, stepIdx, UsesOf(response))
    && RecordsOf(answers) == CrashTransparency.Records(a, stepIdx, UsesOf(response))
  }

  lemma ToldAsUninterrupted(
    a: DurableRun.Agent, rig: Rig, id: RunId, t: Trace, stepIdx: nat, response: Response, answers: seq<Answer>)
    requires SameTools(a, rig, id) && Conforms(a, rig.registry, id, t) && ValidInputs(UsesOf(response))
    requires AllTold(rig.registry, t, id, stepIdx, response, answers)
    ensures AsUninterrupted(a, stepIdx, response, answers)
  {
    var uses := UsesOf(response);
    forall i | 0 <= i < |uses|
      ensures var o := CrashTransparency.ToolOutcome(a, DurableRun.IdOf(stepIdx, uses[i]));
              answers[i] == AnswerWith(uses[i], Recorded(o), o.isError)
    {
      assert uses[i] in uses && Tells(rig.registry, t, id, stepIdx, uses[i], answers[i]);
      assert SameTool(a, rig, id, stepIdx, uses[i]) && ConformsAt(a, rig.registry, id, t, stepIdx, uses[i]);
      ToldIsOutcome(a, rig, id, t, stepIdx, uses[i], answers[i]);
    }
  }

  /** Nothing an agreeing agent asks for is under review, and no handler of its raises. */
  lemma NothingUnwinds(a: DurableRun.Agent, view: View, stepIdx: nat, use: Block, signal: Signal)
    requires CrashTransparency.Transparent(a) && SameTools(a, view.rig, view.id)
    requires Conforms(a, view.rig.registry, view.id, view.t)
    requires use.ToolUseBlock? && Valid(use.input) && Unwinds(view, stepIdx, use, signal)
    ensures signal.ToolInFlight? || signal.QueueUnavailable?
  {
    assert SameTool(a, view.rig, view.id, stepIdx, use);
    assert ConformsAt(a, view.rig.registry, view.id, view.t, stepIdx, use);
  }

  /** From before an attempt to after it: the ledger still conforms, and what is queued is still its own. */
  lemma WorkConforms(a: DurableRun.Agent, rig: Rig, id: RunId, before: Side, after: Side)
    requires CrashTransparency.Transparent(a) && SameTools(a, rig, id) && Named(rig.registry)
    requires AllKeyed(before.undelivered) && Conforms(a, rig.registry, id, before.t)
    requires Grew(rig, before, after) && StaysKeyed(before, after)
    ensures AllKeyed(after.undelivered) && Conforms(a, rig.registry, id, after.t)
  {
    TasksKeepRows(a, rig, id, before.t, after.ran[|before.ran|..]);
  }

  /**
   * A step tried by the loop over a conforming ledger: if it comes back with a response, that
   * is the model's, its results and records are the uninterrupted run's, and no tool stops it
   * for good.
   */
  method TryAsUninterrupted(
    loop: AgentLoop, ghost a: DurableRun.Agent, id: RunId, owner: Owner, stepIdx: nat, request: Request,
    limits: RunLimits, ghost d: LoopTrace.Driver, ghost w: RunMachine.World)
    returns (r: Attempt, ghost v: RunMachine.World)
    requires loop.Valid() && loop.Tied(id, w) && loop.Driving(d, owner) && d.c.limits == limits
    requires owner in w.workers && w.workers[owner].pc == RunMachine.Asking(1)
    requires CrashTransparency.Transparent(a) && SameTools(a, loop.Tools(), id) && Speaks(a, loop.llm.replies)
    requires Named(loop.registry) && Parsed(loop.llm.replies)
    requires AllKeyed(loop.queue.undelivered) && Conforms(a, loop.registry, id, loop.Ledger())
    modifies loop.llm, loop.store`runs, loop.store`now, loop.absence, loop.ledger, loop.tools, loop.queue, loop.clock,
             loop`ran
    ensures loop.Valid() && loop.Tied(id, v)
    ensures AllKeyed(loop.queue.undelivered) && Conforms(a, loop.registry, id, loop.Ledger())
    ensures r.Done? ==>
              && r.response == a.model(request.messages, request.maxTokens)
              && AsUninterrupted(a, stepIdx, r.response, r.answers)
    ensures r.Stopped? ==> r.signal.ToolInFlight?
  {
    ghost var before := loop.Now();
    r, v := loop.AttemptStep(id, owner, stepIdx, request, limits, d, w);
    WorkConforms(a, loop.Tools(), id, before, loop.Now());
    if r.Done? {
      ToldAsUninterrupted(a, loop.Tools(), id, loop.Ledger(), stepIdx, r.response, r.answers);
    }
    if r.Stopped? {
      StepUnwinds(a, loop.ViewOf(id), stepIdx, loop.LastReply(), r.signal);
    }
  }

  lemma StepUnwinds(a: DurableRun.Agent, view: View, stepIdx: nat, reply: Reply, signal: Signal)
    requires CrashTransparency.Transparent(a) && SameTools(a, view.rig, view.id)
    requires Conforms(a, view.rig.registry, view.id, view.t)
    requires reply.Replied? ==> ValidInputs(ToolUses(reply.response.content))
    requires UnwoundBy(view, stepIdx, reply, signal)
    ensures signal.ToolInFlight? || signal.QueueUnavailable?
  {
    var uses := ToolUses(reply.response.content);
    var i :| 0 <= i < |uses| && Unwinds(view, stepIdx, uses[i], signal);
    assert uses[i] in uses;
    NothingUnwinds(a, view, stepIdx, uses[i], signal);
  }
}
