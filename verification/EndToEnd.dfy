/**
 * The loop's code from end to end: one call of `run`, with the registry, the handlers and the
 * provider of a transparent agent, leaves the row as that agent's uninterrupted run ends.
 */
module EndToEnd {
  import opened Wrappers
  import opened Messages
  import opened RunState
  import opened RunStore
  import opened TaskQueue
  import RunMachine
  import LoopTrace
  import DurableRun
  import CrashTransparency
  import Overlap
  import opened SoloPath
  import opened AgentLoop
  import opened Agreement

  // --- The loop speaks for the agent -------------------------------------------------

  /** The driver of a worker that answers as the agent does. */
  ghost predicate Voices(a: DurableRun.Agent, d: LoopTrace.Driver) {
    d.c == a.config && forall s :: d.says(s) <==> AsAgent(a, s)
  }

  lemma ToldAsAgent(
    a: DurableRun.Agent, rig: Rig, id: RunId, t: Trace, messages: seq<Message>, usage: RunUsage, stepIdx: nat,
    response: Response, answers: seq<Answer>)
    requires SameTools(a, rig, id) && Conforms(a, rig.registry, id, t) && ValidInputs(UsesOf(response))
    requires AllTold(rig.registry, t, id, stepIdx, response, answers)
    requires response == a.model(messages, MaxTokensForNextStep(a.config.limits, usage))
    ensures AsAgent(a, LoopTrace.Said(messages, usage, stepIdx, response, ResultsOf(answers), RecordsOf(answers)))
  {
    ToldAsUninterrupted(a, rig, id, t, stepIdx, response, answers);
  }

  /** Over a conforming ledger the loop says what the agent would. */
  lemma AgentIsHonest(
    a: DurableRun.Agent, d: LoopTrace.Driver, rig: Rig, replies: (nat, Request) -> Reply, id: RunId,
    side: Side)
    requires CrashTransparency.Transparent(a) && Voices(a, d) && SameTools(a, rig, id) && Speaks(a, replies)
    requires Named(rig.registry) && Parsed(replies)
    requires AllKeyed(side.undelivered) && Conforms(a, rig.registry, id, side.t)
    ensures Honest(d, rig, replies, id, side)
  {
    forall b, n, messages, usage, stepIdx, response, answers | Works(rig, true, side, b)
      ensures HonestAt(d, rig, replies, id, b, n, messages, usage, stepIdx, response, answers)
    {
      var request := Request(messages, MaxTokensForNextStep(d.c.limits, usage));
      if replies(n, request) == Replied(response) && AllTold(rig.registry, b.t, id, stepIdx, response, answers) {
        WorkConforms(a, rig, id, side, b);
        ToldAsAgent(a, rig, id, b.t, messages, usage, stepIdx, response, answers);
      }
    }
  }

  /** A run an agreeing loop reports was not stopped for good by a tool. */
  lemma NoTrouble(
    a: DurableRun.Agent, limits: RunLimits, usage: RunUsage, view: View, asked: Asked, row: RunRow, now: int,
    owner: Owner, r: Result<RunOutcome, LoopError>)
    requires CrashTransparency.Transparent(a) && SameTools(a, view.rig, view.id) && Conforms(a, view.rig.registry, view.id, view.t)
    requires asked.last.Some? && asked.last.value.Replied? ==> ValidInputs(ToolUses(asked.last.value.response.content))
    requires Ends(limits, usage, view, asked, row, now, owner, r) && r.Ok?
    ensures !Troubled(r.value.error)
  {
    if r.value.error == Some(ErrorCode.NeedsReview) {
      StepUnwinds(a, view, |r.value.steps|, asked.last.value, Review);
    } else if r.value.error == Some(ToolFailed) {
      StepUnwinds(a, view, |r.value.steps|, asked.last.value, ToolBug);
    }
  }

  /** The row and the report are the uninterrupted run's. */
  predicate IsWhole(a: DurableRun.Agent, row: RunRow, o: RunOutcome) {
    var end := CrashTransparency.Whole(a);
    && CrashTransparency.EndedAs(row, end)
    && o.status == end.status && o.answer == end.answer && o.error == end.error
  }

  lemma LastIsParsed(replies: (nat, Request) -> Reply, n: nat, request: Request)
    requires Parsed(replies) && replies(n, request).Replied?
    ensures ValidInputs(ToolUses(replies(n, request).response.content))
  {
  }

  /** The loop's registry, handlers and provider are those of a transparent agent, whose voice `d` is. */
  ghost predicate Plays(
    a: DurableRun.Agent, d: LoopTrace.Driver, rig: Rig, replies: (nat, Request) -> Reply, id: RunId)
  {
    && CrashTransparency.Transparent(a) && Voices(a, d) && SameTools(a, rig, id) && Speaks(a, replies)
    && Named(rig.registry) && Parsed(replies)
  }

  /** All that is waiting carries its own key, and the ledger conforms. */
  ghost predicate InOrder(a: DurableRun.Agent, rig: Rig, id: RunId, side: Side) {
    AllKeyed(side.undelivered) && Conforms(a, rig.registry, id, side.t)
  }

  lemma PlaysHonestly(
    a: DurableRun.Agent, d: LoopTrace.Driver, rig: Rig, replies: (nat, Request) -> Reply, id: RunId, side: Side)
    requires Plays(a, d, rig, replies, id) && InOrder(a, rig, id, side)
    ensures Honest(d, rig, replies, id, side)
  {
    AgentIsHonest(a, d, rig, replies, id, side);
  }

  lemma StaysInOrder(
    a: DurableRun.Agent, d: LoopTrace.Driver, rig: Rig, replies: (nat, Request) -> Reply, id: RunId,
    before: Side, after: Side)
    requires Plays(a, d, rig, replies, id) && InOrder(a, rig, id, before)
    requires Works(rig, Named(rig.registry) && Parsed(replies), before, after)
    ensures InOrder(a, rig, id, after)
  {
    WorkConforms(a, rig, id, before, after);
  }

  /** What was asked last, if anything was. */
  predicate AskedOf(replies: (nat, Request) -> Reply, asked: Asked, requests: seq<Request>) {
    asked.last == if |requests| == 0 then None else Some(replies(|requests| - 1, requests[|requests| - 1]))
  }

  /** What the loop reports is not a tool's doing. */
  lemma ReportsNoTrouble(
    a: DurableRun.Agent, d: LoopTrace.Driver, replies: (nat, Request) -> Reply, requests: seq<Request>,
    row: RunRow, now: int, usage: RunUsage, view: View, asked: Asked, side: Side, r: Result<RunOutcome, LoopError>)
    requires Plays(a, d, view.rig, replies, view.id) && InOrder(a, view.rig, view.id, side) && side.t == view.t
    requires AskedOf(replies, asked, requests)
    requires Ends(d.c.limits, usage, view, asked, row, now, d.o, r) && r.Ok?
    ensures Persisted(r.value, row) && !Troubled(r.value.error)
  {
    if asked.last.Some? && asked.last.value.Replied? {
      LastIsParsed(replies, |requests| - 1, requests[|requests| - 1]);
    }
    NoTrouble(a, d.c.limits, usage, view, asked, row, now, d.o, r);
  }

  /** `run`, with a transparent agent's tools and provider: the tools' side stays in order, and stops no run. */
  method RunInOrder(
    loop: AgentLoop, ghost a: DurableRun.Agent, id: RunId, owner: Owner,
    ghost d: LoopTrace.Driver, ghost w: RunMachine.World)
    returns (r: Result<RunOutcome, LoopError>, ghost v: RunMachine.World)
    requires loop.Valid() && loop.Driving(d, owner) && LoopTrace.Reached(d.c, w) && owner !in w.workers
    requires loop.Tied(id, w)
    requires Plays(a, d, loop.Tools(), loop.llm.replies, id) && InOrder(a, loop.Tools(), id, loop.Now())
    modifies loop.llm, loop.store`runs, loop.store`now, loop.absence, loop.ledger, loop.tools, loop.queue, loop.clock,
             loop`ran
    ensures loop.Valid() && InOrder(a, loop.Tools(), id, loop.Now())
    ensures id in loop.store.runs
    ensures r.Ok? ==>
              && loop.store.runs[id] == v.row && LoopTrace.Follows(d, w, v)
              && Persisted(r.value, v.row) && !Troubled(r.value.error)
  {
    ghost var before := loop.Now();
    PlaysHonestly(a, d, loop.Tools(), loop.llm.replies, id, before);
    r, v := loop.Run(id, owner, d, w);
    StaysInOrder(a, d, loop.Tools(), loop.llm.replies, id, before, loop.Now());
    if r.Ok? {
      ReportsNoTrouble(
        a, d, loop.llm.replies, loop.llm.requests, v.row, v.now, Load(w.row).value.usage, loop.ViewOf(id),
        Asked(|loop.llm.requests| - |old(loop.llm.requests)|, loop.Reply()), loop.Now(), r);
    }
  }

  /** A new run is on the path, and a ledger and a queue that hold nothing are in order. */
  lemma NewRunIsInOrder(a: DurableRun.Agent, rig: Rig, id: RunId, side: Side)
    requires side.t.rows == map[] && side.undelivered == []
    ensures var w := RunMachine.Start(a.config);
            && LoopTrace.Reached(a.config, w) && w.workers == map[]
            && Overlap.RowOnPath(a, w.row, w.batches) && Overlap.Unclosed(w.row)
    ensures InOrder(a, rig, id, side)
  {
    Overlap.StartsOnPath(a);
  }

  lemma ReportedEnd(a: DurableRun.Agent, d: LoopTrace.Driver, w: RunMachine.World, v: RunMachine.World, o: RunOutcome)
    requires CrashTransparency.Transparent(a) && Voices(a, d)
    requires LoopTrace.Reached(d.c, w) && d.o !in w.workers && LoopTrace.Follows(d, w, v)
    requires Overlap.RowOnPath(a, w.row, w.batches) && Overlap.Unclosed(w.row)
    requires Persisted(o, v.row) && !Troubled(o.error) && o.status.IsTerminal() && v.row.retriesUsed == 0
    ensures IsWhole(a, v.row, o)
  {
    LoopTrace.ReachedInv(d.c, w);
    StaysOnOwnPath(a, d, w, v);
    UntriedEndsAsWhole(a, d.o, v);
  }

  /**
   * One call of `run` on a run that has gone as it should so far, new or resumed: if it
   * reports an end and no retry was ever charged, the row holds the status, answer, error,
   * steps, conversation and usage of the uninterrupted run. The ledger still conforms, so the
   * next call may be relied on likewise.
   */
  method RunAsUninterrupted(
    loop: AgentLoop, ghost a: DurableRun.Agent, id: RunId, owner: Owner,
    ghost d: LoopTrace.Driver, ghost w: RunMachine.World)
    returns (r: Result<RunOutcome, LoopError>, ghost v: RunMachine.World)
    requires loop.Valid() && loop.Driving(d, owner) && LoopTrace.Reached(d.c, w) && owner !in w.workers
    requires loop.Tied(id, w) && Overlap.RowOnPath(a, w.row, w.batches) && Overlap.Unclosed(w.row)
    requires Plays(a, d, loop.Tools(), loop.llm.replies, id) && InOrder(a, loop.Tools(), id, loop.Now())
    modifies loop.llm, loop.store`runs, loop.store`now, loop.absence, loop.ledger, loop.tools, loop.queue, loop.clock,
             loop`ran
    ensures loop.Valid() && InOrder(a, loop.Tools(), id, loop.Now())
    ensures id in loop.store.runs
    ensures r.Ok? && r.value.status.IsTerminal() && loop.store.runs[id].retriesUsed == 0 ==>
              IsWhole(a, loop.store.runs[id], r.value)
  {
    r, v := RunInOrder(loop, a, id, owner, d, w);
    if r.Ok? && r.value.status.IsTerminal() && v.row.retriesUsed == 0 { ReportedEnd(a, d, w, v, r.value); }
  }
}
