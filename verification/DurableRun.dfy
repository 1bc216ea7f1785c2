/**
 * A run together with its model, its tools, the ledger and the queue.
 *
 * `RunMachine` leaves open what an attempt at a step comes to; here it is played out. The
 * model is a function of its request and a tool's behaviour a function of the call, and a
 * process may die between any two steps, a handler's last instruction and the write that
 * records it included. There are no transport failures and no step timeouts here.
 */
module DurableRun {
  import opened Json
  import opened Messages
  import opened RunState
  import opened RunStore
  import opened Idempotency
  import RunMachine

  /**
   * A call within one run, as its key tells calls apart (`InvocationKey.PreimageIsExact`):
   * the position, the tool's name, and the arguments' canonical text.
   */
  datatype CallId = CallId(stepIdx: nat, name: Text, args: string)

  /** An unknown tool and rejected arguments are answered without touching the ledger. */
  datatype Tool =
    | Unusable(detail: Text)
    | Usable(effect: EffectClass, durable: bool, does: HandlerResult)

  datatype Agent = Agent(
    config: RunMachine.Config, model: (seq<Message>, int) -> Response, tool: CallId -> Tool)

  datatype Stage = Idle | Executing | Enqueueing | Waiting

  /** The inside of an attempt: the response in hand and the calls answered so far. */
  datatype Talk = Talk(response: Response, results: seq<Block>, records: seq<ToolCallRecord>, stage: Stage) {
    function Uses(): (uses: seq<Block>)
      ensures forall u | u in uses :: u.ToolUseBlock?
    {
      if response.stop.ToolUse? then ToolUses(response.content) else []
    }

    predicate Answered() { |results| == |Uses()| }

    function Collect(content: Text, isError: bool): Talk
      requires |results| < |Uses()|
    {
      var use := Uses()[|results|];
      Talk(response, results + [ResultOf(use, content, isError)], records + [RecordFor(use, content, isError)], Idle)
    }
  }

  /** `cutShort` remembers that a worker was lost between its final commit and its `finish`. */
  datatype World = World(
    run: RunMachine.World,
    rows: map<CallId, Outcome>,
    queued: set<CallId>,
    talks: map<Owner, Talk>,
    cutShort: bool)

  datatype Event =
    | Store(e: RunMachine.Event)
    | Respond(o: Owner)
    | Reject(o: Owner)
    | Begin(o: Owner)
    | Record(o: Owner)
    | Look(o: Owner)
    | Enqueue(o: Owner)
    | Poll(o: Owner)
    | TimeUp(o: Owner)
    | Turn(o: Owner)
    | Deliver(id: CallId)
    | Settle(id: CallId)

  function IdOf(stepIdx: nat, use: Block): CallId
    requires use.ToolUseBlock?
  {
    CallId(stepIdx, use.name, Dumps(use.input))
  }

  function Start(a: Agent): World {
    World(RunMachine.Start(a.config), map[], {}, map[], false)
  }

  // --- Steps -------------------------------------------------------------------------

  predicate IsAsking(w: World, o: Owner) { o in w.run.workers && w.run.workers[o].pc.Asking? }

  /** `o` has an unanswered call in hand and stands at `stage` of it. */
  predicate Working(w: World, o: Owner, stage: Stage) {
    IsAsking(w, o) && o in w.talks && w.talks[o].stage == stage && |w.talks[o].results| < |w.talks[o].Uses()|
  }

  function Current(w: World, o: Owner): CallId
    requires IsAsking(w, o) && o in w.talks && |w.talks[o].results| < |w.talks[o].Uses()|
  {
    IdOf(|w.run.workers[o].steps|, w.talks[o].Uses()[|w.talks[o].results|])
  }

  /** The steps that lie outside an attempt. */
  predicate Outside(e: RunMachine.Event) { !e.Answer? && !e.Fail? && !e.GiveUp? && !e.Charge? }

  ghost predicate Enabled(a: Agent, w: World, e: Event) {
    match e
    case Store(e) => Outside(e) && RunMachine.Enabled(a.config, w.run, e)
    case Respond(o) => IsAsking(w, o) && o !in w.talks
    case Reject(o) => Working(w, o, Idle) && a.tool(Current(w, o)).Unusable?
    case Begin(o) => Working(w, o, Idle) && a.tool(Current(w, o)).Usable? && !a.tool(Current(w, o)).durable
    case Record(o) => Working(w, o, Executing) && a.tool(Current(w, o)).Usable?
    case Look(o) => Working(w, o, Idle) && a.tool(Current(w, o)).Usable? && a.tool(Current(w, o)).durable
    case Enqueue(o) => Working(w, o, Enqueueing)
    case Poll(o) => Working(w, o, Waiting)
    case TimeUp(o) => Working(w, o, Waiting)
    case Turn(o) => IsAsking(w, o) && o in w.talks && w.talks[o].Answered()
    case Deliver(id) => id in w.queued && a.tool(id).Usable?
    case Settle(id) => id in w.rows && a.tool(id).Usable?
  }

  /** Between the final commit and `finish`. */
  predicate Closing(k: RunMachine.Worker) {
    (k.pc.Renewing? && k.pc.answer.Some?) || (k.pc.Finishing? && k.pc.outcome.status.Completed?)
  }

  predicate CutsShort(w: RunMachine.World, e: RunMachine.Event) {
    match e
    case Crash(o) => o in w.workers && Closing(w.workers[o])
    case Renew(o) => o in w.workers && Closing(w.workers[o]) && !Renewable(w.row, w.now, o)
    case _ => false
  }

  function GivesUp(a: Agent, w: World, o: Owner, why: RunMachine.Abort): World
    requires IsAsking(w, o)
  {
    w.(run := RunMachine.Apply(a.config, w.run, RunMachine.GiveUp(o, why)), talks := w.talks - {o})
  }

  function Staged(w: World, o: Owner, stage: Stage): World
    requires o in w.talks
  {
    w.(talks := w.talks[o := w.talks[o].(stage := stage)])
  }

  function Given(w: World, o: Owner, content: Text, isError: bool): World
    requires o in w.talks && |w.talks[o].results| < |w.talks[o].Uses()|
  {
    w.(talks := w.talks[o := w.talks[o].Collect(content, isError)])
  }

  /** What a ledger statement leaves the attempt to do next. */
  datatype Reaction = Stay(stage: Stage) | Told(outcome: Outcome) | Abort(why: RunMachine.Abort)

  /** A row under review is not an answer (`_result_from`). */
  function React(a: Agent, w: World, o: Owner, r: Reaction): World
    requires IsAsking(w, o) && o in w.talks && |w.talks[o].results| < |w.talks[o].Uses()|
  {
    match r
    case Stay(stage) => Staged(w, o, stage)
    case Abort(why) => GivesUp(a, w, o, why)
    case Told(outcome) =>
      if outcome.status.NeedsReview? then GivesUp(a, w, o, RunMachine.Review)
      else Given(w, o, Recorded(outcome), outcome.isError)
  }

  /** The claim half of `execute_invocation`. */
  function ClaimOf(rows: map<CallId, Outcome>, id: CallId, effect: EffectClass): (map<CallId, Outcome>, Reaction) {
    if id !in rows then (rows[id := PENDING_ROW], Stay(Executing))
    else
      var d := Decide(rows[id], effect);
      match d.action
      case Replay =>
        (rows, Told(Outcome(if d.isError then InvocationStatus.Failed else Succeeded, d.result, d.isError)))
      case Refuse => (Update(rows, id, ReviewRow(id.name)), Abort(RunMachine.Review))
      case _ => (rows, Stay(Executing))
  }

  /** A lookup of a durable call: only a closed row ends the wait. */
  function LookOf(rows: map<CallId, Outcome>, id: CallId, otherwise: Stage): Reaction {
    if id !in rows then Stay(otherwise)
    else if rows[id].IsTerminal() then Told(rows[id])
    else Stay(Waiting)
  }

  /** A worker process picks a task up, whatever happened to it before. */
  function Delivered(a: Agent, w: World, id: CallId): World
    requires Enabled(a, w, Deliver(id))
  {
    if id !in w.rows then w.(rows := w.rows[id := PENDING_ROW])
    else if Decide(w.rows[id], a.tool(id).effect).action.Refuse? then
      w.(rows := Update(w.rows, id, ReviewRow(id.name)))
    else w
  }

  function Apply(a: Agent, w: World, e: Event): World
    requires Enabled(a, w, e)
  {
    match e
    case Store(e) =>
      w.(run := RunMachine.Apply(a.config, w.run, e), cutShort := w.cutShort || CutsShort(w.run, e))
    case Respond(o) =>
      var k := w.run.workers[o];
      var response := a.model(k.messages, MaxTokensForNextStep(a.config.limits, k.usage));
      w.(talks := w.talks[o := Talk(response, [], [], Idle)])
    case Reject(o) => Given(w, o, a.tool(Current(w, o)).detail, true)
    case Begin(o) =>
      var (rows, r) := ClaimOf(w.rows, Current(w, o), a.tool(Current(w, o)).effect);
      React(a, w.(rows := rows), o, r)
    case Record(o) =>
      var id := Current(w, o);
      var does := a.tool(id).does;
      var r := if does.Raised? then Abort(RunMachine.ToolBug) else Told(RecordOf(does));
      React(a, w.(rows := Update(w.rows, id, RecordOf(does))), o, r)
    case Look(o) => React(a, w, o, LookOf(w.rows, Current(w, o), Enqueueing))
    case Enqueue(o) => Staged(w.(queued := w.queued + {Current(w, o)}), o, Waiting)
    case Poll(o) => React(a, w, o, LookOf(w.rows, Current(w, o), Waiting))
    case TimeUp(o) => GivesUp(a, w, o, RunMachine.ToolInFlight)
    case Turn(o) =>
      var t := w.talks[o];
      w.(run := RunMachine.Put(w.run, o, RunMachine.Answered(w.run.workers[o], t.response, t.results, t.records)),
         talks := w.talks - {o})
    case Deliver(id) => Delivered(a, w, id)
    case Settle(id) => w.(rows := w.rows[id := RecordOf(a.tool(id).does)])
  }

  ghost predicate CanRun(a: Agent, w: World, es: seq<Event>)
    decreases |es|
  {
    |es| == 0 || (Enabled(a, w, es[0]) && CanRun(a, Apply(a, w, es[0]), es[1..]))
  }

  function Run(a: Agent, w: World, es: seq<Event>): World
    requires CanRun(a, w, es)
    decreases |es|
  {
    if |es| == 0 then w else Run(a, Apply(a, w, es[0]), es[1..])
  }
}
