/**
 * The loop itself: one call of `run`, from the claim to the last write.
 *
 * What it cannot decide is an oracle: the model's replies, the handlers, the jitter, and how
 * much time passes. While this process sleeps, the queue's worker may come round.
 */
module AgentLoop {
  import opened Wrappers
  import opened Json
  import CanonicalJson
  import opened Messages
  import opened RunState
  import opened RunStore
  import opened Idempotency
  import opened ToolLedger
  import opened TaskQueue
  import opened Retry
  import opened DurableWait
  import opened InvocationKey
  import RunMachine
  import LoopTrace
  import SoloRun

  datatype Request = Request(messages: seq<Message>, maxTokens: int)

  datatype Reply = Replied(response: Response) | TransportError | TimedOut | BadRequest

  class LanguageModel {
    const replies: (nat, Request) -> Reply
    var requests: seq<Request>

    constructor (replies: (nat, Request) -> Reply)
      ensures requests == [] && this.replies == replies
    {
      this.replies, requests := replies, [];
    }

    method Complete(messages: seq<Message>, maxTokens: int) returns (r: Reply)
      modifies this
      ensures requests == old(requests) + [Request(messages, maxTokens)]
      ensures r == replies(|old(requests)|, Request(messages, maxTokens))
    {
      r := replies(|requests|, Request(messages, maxTokens));
      requests := requests + [Request(messages, maxTokens)];
    }
  }

  type Draw = r: real | 0.0 <= r < 1.0 witness 0.0

  /** A sleep: when it began, and how long it was asked to last. */
  datatype Nap = Nap(start: real, asked: real)

  /** Every sleep since was asked to end by the deadline. */
  predicate EndBy(before: seq<Nap>, after: seq<Nap>, deadline: real) {
    before <= after && forall i :: |before| <= i < |after| ==> after[i].start + after[i].asked <= deadline
  }

  /** The event loop's clock, and the worker that may come round while this process sleeps. */
  class Clock {
    const oversleeps: nat -> nat   // milliseconds
    const wakes: nat -> bool       // does the worker come round?
    var time: real
    var naps: seq<Nap>

    constructor (oversleeps: nat -> nat, wakes: nat -> bool)
      ensures naps == []
    {
      this.oversleeps, this.wakes := oversleeps, wakes;
      time, naps := 0.0, [];
    }

    /** Lasts at least as long as asked. */
    method Sleep(seconds: real) returns (woken: bool)
      requires 0.0 <= seconds
      modifies this
      ensures time >= old(time) + seconds
      ensures naps == old(naps) + [Nap(old(time), seconds)]
    {
      woken := wakes(|naps|);
      naps := naps + [Nap(time, seconds)];
      time := time + seconds + oversleeps(|naps|) as real / 1000.0;
    }
  }

  /** How long this process is away from the database between two calls, in its seconds. */
  class Absence {
    const lasts: nat -> nat
    var count: nat

    constructor (lasts: nat -> nat)
    {
      this.lasts, count := lasts, 0;
    }

    method Next() returns (seconds: nat)
      modifies this
    {
      seconds := lasts(count);
      count := count + 1;
    }
  }

  /** Every reply's blocks are ones the store gives back unchanged. */
  ghost predicate KeepsBlocks(replies: (nat, Request) -> Reply) {
    forall n, r :: replies(n, r).Replied? ==> forall b | b in replies(n, r).response.content :: Stable(b)
  }

  // --- Tool calls --------------------------------------------------------------------

  /** What unwinds out of the middle of a tool call. */
  datatype Signal = ToolInFlight | Review | ToolBug | QueueUnavailable

  /** The name as the registry spells its names; one with a lone surrogate is none of them. */
  function AsString(t: Text): (name: Option<string>)
    ensures name.Some? ==> T(name.value) == t
  {
    if forall i :: 0 <= i < |t| ==> t[i] < 0xD800 || 0xE000 <= t[i]
    then Some(seq(|t|, i requires 0 <= i < |t| => t[i] as char))
    else None
  }

  lemma SpellsBack(name: string)
    ensures AsString(T(name)) == Some(name)
  {
    assert AsString(T(name)).value == name;
  }

  datatype Route = Rejected(why: ToolError) | Routed(tool: string, spec: ToolSpec)

  /** The registry's answer to a call, and the input model's. */
  function RouteOf(registry: Registry, use: Block): Route
    requires use.ToolUseBlock?
  {
    var name := AsString(use.name);
    if name.None? || name.value !in registry then Rejected(NotFound)
    else if !registry[name.value].accepts(use.input) then Rejected(InputInvalid)
    else Routed(name.value, registry[name.value])
  }

  /** What a route says: that no tool has the name, that it refuses the input, or which tool takes it. */
  ghost predicate RoutesRightly(registry: Registry, use: Block, route: Route)
    requires use.ToolUseBlock?
  {
    match route
    case Rejected(NotFound) => forall n | n in registry :: T(n) != use.name
    case Rejected(InputInvalid) => exists n | n in registry :: T(n) == use.name && !registry[n].accepts(use.input)
    case Rejected(Crashed(_)) => false
    case Routed(tool, spec) =>
      tool in registry && T(tool) == use.name && spec == registry[tool] && spec.accepts(use.input)
  }

  lemma RouteIsRight(registry: Registry, use: Block)
    requires use.ToolUseBlock?
    ensures RoutesRightly(registry, use, RouteOf(registry, use))
  {
    forall n | n in registry && T(n) == use.name ensures AsString(use.name) == Some(n) { SpellsBack(n); }
  }

  function CallOf(id: RunId, stepIdx: nat, tool: string, use: Block): Call
    requires use.ToolUseBlock?
  {
    Call(Decimal(id), stepIdx, tool, use.input)
  }

  /** What the model reads about a call that could not be made; the wording is not modelled. */
  function Explain(e: ToolError): Text {
    match e
    case NotFound => [1]
    case InputInvalid => [2]
    case Crashed(detail) => detail
  }

  datatype Answer = Answer(result: Block, record: ToolCallRecord)

  /** What the model reads of a call and what the step records of it: the text, and whether it is an error. */
  predicate Gives(use: Block, text: Text, isError: bool, a: Answer)
    requires use.ToolUseBlock?
  {
    && a.result == ToolResultBlock(use.id, text, isError)
    && a.record == ToolCallRecord(use.id, use.name, !isError, if isError then Some(text) else None)
  }

  /** How a call whose handler came to this ends. */
  predicate EndsAs(use: Block, h: HandlerResult, r: Result<Answer, Signal>)
    requires use.ToolUseBlock?
  {
    match h
    case Returned(output) =>
      && r.Ok? && r.value.result.ToolResultBlock? && Gives(use, r.value.result.content, false, r.value)
      && if |output| <= 8000 then r.value.result.content == output else output[..8000] < r.value.result.content
    case Declared(message) => r.Ok? && Gives(use, message, true, r.value)
    case Raised(_) => r == Err(ToolBug)
  }

  predicate RejectedAs(use: Block, r: Result<Answer, Signal>)
    requires use.ToolUseBlock?
  {
    r.Ok? && r.value.result.ToolResultBlock? && Gives(use, r.value.result.content, true, r.value)
  }

  /** What starts a call's handler: its having no row, or one left pending, unless it is unsafe. */
  predicate StartsHandler(was: Option<Outcome>, effect: EffectClass) {
    was.None? || (was.value.status.Pending? && effect != Unsafe)
  }

  /** How an inline call ends: by its handler, by the answer it had, or for review. */
  predicate EndsInline(
    was: Option<Outcome>, effect: EffectClass, use: Block, h: HandlerResult, r: Result<Answer, Signal>)
    requires use.ToolUseBlock?
  {
    if StartsHandler(was, effect) then EndsAs(use, h, r)
    else if was.value.status.Succeeded? || was.value.status.Failed? then
      r.Ok? && was.value.result.Some? && Gives(use, was.value.result.value, was.value.isError, r.value)
    else r == Err(Review)
  }

  function AnswerWith(use: Block, content: Text, isError: bool): Answer
    requires use.ToolUseBlock?
  {
    Answer(ResultOf(use, content, isError), RecordFor(use, content, isError))
  }

  /** The model is told what the ledger says, and of a call that was never made, why. */
  predicate Tells(registry: Registry, t: Trace, id: RunId, stepIdx: nat, use: Block, a: Answer)
    requires use.ToolUseBlock?
  {
    match RouteOf(registry, use)
    case Rejected(why) => a == AnswerWith(use, Explain(why), true)
    case Routed(tool, _) =>
      var key := KeyOf(CallOf(id, stepIdx, tool, use));
      Answered(t, key) && a == AnswerWith(use, Recorded(t.rows[key]), t.rows[key].isError)
  }

  /** Answers stay, and so does every row. */
  predicate Extends(t: Trace, u: Trace) {
    && (forall k | k in t.rows :: k in u.rows)
    && (forall k | k in t.rows && Answered(t, k) :: k in u.rows && u.rows[k] == t.rows[k])
  }

  /** What was queued beyond `before`: nothing that had a row. */
  predicate NewlyQueued(before: seq<TaskData>, after: seq<TaskData>, rows: Rows) {
    before <= after && forall i :: |before| <= i < |after| ==> after[i].key !in rows
  }

  /** The tools, as registered and as they behave. */
  datatype Rig = Rig(registry: Registry, behaviour: (nat, Call) -> HandlerResult)

  /** The tools' side of the world: the ledger, what was queued, every invocation so far, the time. */
  datatype Side = Side(
    t: Trace, dispatched: seq<TaskData>, undelivered: seq<TaskData>, delivered: seq<TaskData>,
    ran: seq<TaskData>, time: real)

  /**
   * The ledger is exactly what the invocations since left of it, inline or delivered, and
   * nothing that had a row was queued.
   */
  predicate Grew(rig: Rig, a: Side, b: Side) {
    match rig
    case Rig(registry, behaviour) =>
      && a.ran <= b.ran && b.t == AfterTasks(registry, behaviour, a.t, b.ran[|a.ran|..])
      && NewlyQueued(a.dispatched, b.dispatched, a.t.rows)
      && a.time <= b.time
  }

  lemma GrewExtends(rig: Rig, a: Side, b: Side)
    requires Grew(rig, a, b)
    ensures Extends(a.t, b.t)
  {
    DeliveriesExtend(rig.registry, rig.behaviour, a.t, b.ran[|a.ran|..]);
  }

  /** A task that carries its call's own key. */
  predicate Keyed(d: TaskData) { ValidCall(d.call) && d.key == KeyOf(d.call) }

  predicate AllKeyed(ds: seq<TaskData>) { forall d | d in ds :: Keyed(d) }

  /** If what was waiting carried its own keys, so does all that ran since, and what waits now. */
  predicate StaysKeyed(a: Side, b: Side) {
    && a.ran <= b.ran
    && (AllKeyed(a.undelivered) ==> AllKeyed(b.ran[|a.ran|..]) && AllKeyed(b.undelivered))
  }

  /** All that ran since was delivered by the queue. */
  predicate OnlyDelivered(a: Side, b: Side) {
    a.delivered <= b.delivered && b.ran == a.ran + b.delivered[|a.delivered|..]
  }

  lemma StandsStill(rig: Rig, a: Side)
    ensures Grew(rig, a, a) && StaysKeyed(a, a) && OnlyDelivered(a, a)
  {
    assert AfterTasks(rig.registry, rig.behaviour, a.t, []) == a.t;
  }

  /** `Grew`, by tasks that carry their own keys if all there is to go by is well formed. */
  predicate Works(rig: Rig, wellFormed: bool, a: Side, b: Side) {
    Grew(rig, a, b) && (wellFormed ==> StaysKeyed(a, b))
  }

  lemma TimePasses(rig: Rig, a: Side, b: Side, c: Side)
    requires Grew(rig, a, b) && c == b.(time := c.time) && b.time <= c.time
    ensures Grew(rig, a, c)
    ensures StaysKeyed(a, b) ==> StaysKeyed(a, c)
  {
  }

  lemma GrewTwice(rig: Rig, a: Side, b: Side, c: Side)
    requires Grew(rig, a, b) && Grew(rig, b, c)
    ensures Grew(rig, a, c)
    ensures StaysKeyed(a, b) && StaysKeyed(b, c) ==> StaysKeyed(a, c)
    ensures OnlyDelivered(a, b) && OnlyDelivered(b, c) ==> OnlyDelivered(a, c)
  {
    var first, second := b.ran[|a.ran|..], c.ran[|b.ran|..];
    assert c.ran[|a.ran|..] == first + second;
    DeliveriesCompose(rig.registry, rig.behaviour, a.t, first, second);
    QueuedTwice(rig, a, b, c);
    if OnlyDelivered(a, b) && OnlyDelivered(b, c) { DeliveredTwice(a, b, c); }
  }

  lemma QueuedTwice(rig: Rig, a: Side, b: Side, c: Side)
    requires Grew(rig, a, b) && NewlyQueued(b.dispatched, c.dispatched, b.t.rows)
    ensures NewlyQueued(a.dispatched, c.dispatched, a.t.rows)
  {
    GrewExtends(rig, a, b);
    forall i | |a.dispatched| <= i < |c.dispatched| ensures c.dispatched[i].key !in a.t.rows {
      if i < |b.dispatched| { assert c.dispatched[i] == b.dispatched[i]; }
    }
  }

  lemma DeliveredTwice(a: Side, b: Side, c: Side)
    requires OnlyDelivered(a, b) && OnlyDelivered(b, c)
    ensures OnlyDelivered(a, c)
  {
    assert c.delivered[|a.delivered|..] == b.delivered[|a.delivered|..] + c.delivered[|b.delivered|..];
  }

  /** Tool names hold no bar. */
  predicate Named(registry: Registry) { forall n | n in registry :: BarFree(n) }

  predicate ValidInputs(uses: seq<Block>) { forall u | u in uses :: u.ToolUseBlock? && Json.Valid(u.input) }

  /** The arguments of every call the model asks for are parsed JSON. */
  ghost predicate Parsed(replies: (nat, Request) -> Reply) {
    forall n, r :: replies(n, r).Replied? ==> ValidInputs(ToolUses(replies(n, r).response.content))
  }

  lemma StillTells(registry: Registry, t: Trace, u: Trace, id: RunId, stepIdx: nat, use: Block, a: Answer)
    requires use.ToolUseBlock? && Extends(t, u) && Tells(registry, t, id, stepIdx, use, a)
    ensures Tells(registry, u, id, stepIdx, use, a)
  {
  }

  /** These answers are told of the first calls, in order. */
  predicate ToldSoFar(registry: Registry, t: Trace, id: RunId, stepIdx: nat, uses: seq<Block>, answers: seq<Answer>)
    requires forall u | u in uses :: u.ToolUseBlock?
  {
    |answers| <= |uses| && forall i :: 0 <= i < |answers| ==> Tells(registry, t, id, stepIdx, uses[i], answers[i])
  }

  lemma StillTold(
    registry: Registry, t: Trace, u: Trace, id: RunId, stepIdx: nat, uses: seq<Block>, answers: seq<Answer>)
    requires forall u | u in uses :: u.ToolUseBlock?
    requires Extends(t, u) && ToldSoFar(registry, t, id, stepIdx, uses, answers)
    ensures ToldSoFar(registry, u, id, stepIdx, uses, answers)
  {
    forall i | 0 <= i < |answers| ensures Tells(registry, u, id, stepIdx, uses[i], answers[i]) {
      StillTells(registry, t, u, id, stepIdx, uses[i], answers[i]);
    }
  }

  lemma ToldOneMore(
    registry: Registry, t: Trace, id: RunId, stepIdx: nat, uses: seq<Block>, answers: seq<Answer>, a: Answer)
    requires forall u | u in uses :: u.ToolUseBlock?
    requires |answers| < |uses| && ToldSoFar(registry, t, id, stepIdx, uses, answers)
    requires Tells(registry, t, id, stepIdx, uses[|answers|], a)
    ensures ToldSoFar(registry, t, id, stepIdx, uses, answers + [a])
  {
    forall i | 0 <= i < |answers| + 1 ensures Tells(registry, t, id, stepIdx, uses[i], (answers + [a])[i]) {
      if i < |answers| { assert Tells(registry, t, id, stepIdx, uses[i], answers[i]); }
    }
  }

  /** Work done since `mid` adds to the work since `start`, and changes nothing that was told. */
  lemma WorkGoesOn(
    rig: Rig, start: Side, mid: Side, now: Side, id: RunId, stepIdx: nat, uses: seq<Block>, answers: seq<Answer>)
    requires forall u | u in uses :: u.ToolUseBlock?
    requires Grew(rig, start, mid) && Grew(rig, mid, now) && ToldSoFar(rig.registry, mid.t, id, stepIdx, uses, answers)
    ensures Grew(rig, start, now) && ToldSoFar(rig.registry, now.t, id, stepIdx, uses, answers)
    ensures StaysKeyed(start, mid) && StaysKeyed(mid, now) ==> StaysKeyed(start, now)
  {
    GrewTwice(rig, start, mid, now);
    GrewExtends(rig, mid, now);
    StillTold(rig.registry, mid.t, now.t, id, stepIdx, uses, answers);
  }

  lemma DeliveriesExtend(registry: Registry, behaviour: (nat, Call) -> HandlerResult, t: Trace, ds: seq<TaskData>)
    ensures Extends(t, AfterTasks(registry, behaviour, t, ds))
  {
    RowsRemain(registry, behaviour, t, ds);
    DeliveriesSettle(registry, behaviour, t, ds);
  }

  lemma {:induction false} RowsRemain(
    registry: Registry, behaviour: (nat, Call) -> HandlerResult, t: Trace, ds: seq<TaskData>)
    ensures forall k | k in t.rows :: k in AfterTasks(registry, behaviour, t, ds).rows
  {
    if |ds| > 0 { RowsRemain(registry, behaviour, t, ds[..|ds| - 1]); }
  }

  lemma {:induction false} DeliveriesCompose(
    registry: Registry, behaviour: (nat, Call) -> HandlerResult, t: Trace, ds: seq<TaskData>, es: seq<TaskData>)
    ensures AfterTasks(registry, behaviour, t, ds + es)
            == AfterTasks(registry, behaviour, AfterTasks(registry, behaviour, t, ds), es)
  {
    if |es| == 0 {
      assert ds + es == ds;
    } else {
      var n := |es| - 1;
      DeliveriesCompose(registry, behaviour, t, ds, es[..n]);
      assert (ds + es)[..|ds + es| - 1] == ds + es[..n];
    }
  }

  /** A call that runs the moment it is queued, or is run here, leaves what one task leaves. */
  lemma SentAtOnce(rig: Rig, a: Side, b: Side, d: TaskData, atOnce: bool)
    requires b.ran == a.ran + if atOnce then [d] else []
    requires b.t == if atOnce then AfterTask(rig.registry, rig.behaviour, a.t, d) else a.t
    requires b.time == a.time
    requires b.dispatched == a.dispatched || (b.dispatched == a.dispatched + [d] && d.key !in a.t.rows)
    ensures Grew(rig, a, b)
    ensures Keyed(d) && (b.undelivered == a.undelivered || b.undelivered == a.undelivered + [d]) ==> StaysKeyed(a, b)
  {
    assert b.ran[|a.ran|..] == if atOnce then [d] else [];
    assert AfterTasks(rig.registry, rig.behaviour, a.t, []) == a.t;
    assert [d][..0] == [];
  }

  lemma KeysOwnCall(registry: Registry, id: RunId, stepIdx: nat, use: Block)
    requires use.ToolUseBlock? && RouteOf(registry, use).Routed?
    ensures var call := CallOf(id, stepIdx, RouteOf(registry, use).tool, use);
            Named(registry) && Json.Valid(use.input) ==> Keyed(TaskData(call, KeyOf(call)))
  {
    CanonicalJson.DecimalDigits(id);
  }

  /** The four fields of a call's key. */
  function KeyAt(id: RunId, stepIdx: nat, tool: string, use: Block): Key
    requires use.ToolUseBlock?
  {
    Preimage(Decimal(id), stepIdx, tool, use.input)
  }

  /**
   * Two calls the loop makes have one key exactly when run, step, name and arguments agree,
   * the arguments up to key order.
   */
  lemma KeysTellCallsApart(
    registry: Registry, id: RunId, stepIdx: nat, use: Block, id': RunId, stepIdx': nat, use': Block)
    requires Named(registry) && use.ToolUseBlock? && use'.ToolUseBlock?
    requires Json.Valid(use.input) && Json.Valid(use'.input)
    requires RouteOf(registry, use).Routed? && RouteOf(registry, use').Routed?
    ensures KeyOf(CallOf(id, stepIdx, RouteOf(registry, use).tool, use))
            == KeyOf(CallOf(id', stepIdx', RouteOf(registry, use').tool, use'))
            <==> id == id' && stepIdx == stepIdx' && use.name == use'.name && Same(use.input, use'.input)
  {
    var tool, tool' := RouteOf(registry, use).tool, RouteOf(registry, use').tool;
    RouteIsRight(registry, use);
    RouteIsRight(registry, use');
    CanonicalJson.DecimalDigits(id);
    CanonicalJson.DecimalDigits(id');
    if Decimal(id) == Decimal(id') { CanonicalJson.DecimalInjective(id, id'); }
    PreimageIsExact(Decimal(id), stepIdx, tool, use.input, Decimal(id'), stepIdx', tool', use'.input);
  }

  /** The row of this key is that of a call from elsewhere: another run, step, tool, or other arguments. */
  ghost predicate OfAnother(registry: Registry, k: Key, id: RunId, stepIdx: nat, use: Block)
    requires use.ToolUseBlock?
  {
    exists id': RunId, stepIdx': nat, use': Block ::
      && use'.ToolUseBlock? && Json.Valid(use'.input) && RouteOf(registry, use').Routed?
      && k == KeyOf(CallOf(id', stepIdx', RouteOf(registry, use').tool, use'))
      && !(id' == id && stepIdx' == stepIdx && use'.name == use.name && Same(use.input, use'.input))
  }

  ghost predicate NotCalledYet(registry: Registry, rows: Rows, id: RunId, stepIdx: nat, use: Block)
    requires use.ToolUseBlock?
  {
    Named(registry) && Json.Valid(use.input) && forall k | k in rows :: OfAnother(registry, k, id, stepIdx, use)
  }

  lemma NoRowYet(registry: Registry, rows: Rows, id: RunId, stepIdx: nat, use: Block)
    requires use.ToolUseBlock? && RouteOf(registry, use).Routed?
    requires NotCalledYet(registry, rows, id, stepIdx, use)
    ensures KeyOf(CallOf(id, stepIdx, RouteOf(registry, use).tool, use)) !in rows
  {
    var k := KeyOf(CallOf(id, stepIdx, RouteOf(registry, use).tool, use));
    if k in rows {
      assert OfAnother(registry, k, id, stepIdx, use);
      var id': RunId, stepIdx': nat, use': Block :|
        && use'.ToolUseBlock? && Json.Valid(use'.input) && RouteOf(registry, use').Routed?
        && k == KeyOf(CallOf(id', stepIdx', RouteOf(registry, use').tool, use'))
        && !(id' == id && stepIdx' == stepIdx && use'.name == use.name && Same(use.input, use'.input));
      KeysTellCallsApart(registry, id, stepIdx, use, id', stepIdx', use');
    }
  }

  /** How one step ended: with a response and its calls answered, or how it was given up. */
  datatype Attempt =
    | Done(response: Response, answers: seq<Answer>, attempt: nat)
    | Exhausted(runBudget: bool)
    | Stopped(signal: Signal)
    | Refused

  /** How one attempt at it ended. */
  datatype Tried = Got(response: Response, answers: seq<Answer>) | PassingFailure | Rebuffed | Unwound(signal: Signal)

  /** One answer for each call of the turn, in order, as the ledger has it. */
  predicate AllTold(
    registry: Registry, t: Trace, id: RunId, stepIdx: nat, response: Response, answers: seq<Answer>)
  {
    var uses := if response.stop.ToolUse? then ToolUses(response.content) else [];
    |answers| == |uses| && ToldSoFar(registry, t, id, stepIdx, uses, answers)
  }

  /** The ledger as a run left it, and the tools behind it. */
  datatype View = View(rig: Rig, t: Trace, id: RunId)

  /** Why this call unwound its step. */
  ghost predicate Unwinds(view: View, stepIdx: nat, use: Block, signal: Signal)
    requires use.ToolUseBlock?
  {
    var route := RouteOf(view.rig.registry, use);
    route.Routed? &&
    var call := CallOf(view.id, stepIdx, route.tool, use);
    var key, rows := KeyOf(call), view.t.rows;
    match signal
    case ToolInFlight => route.spec.durable
    case Review => key in rows && rows[key].status.NeedsReview?
    case ToolBug => !route.spec.durable && key in rows && Bug(view.rig.behaviour, call, rows[key])
    case QueueUnavailable => route.spec.durable && key !in rows
  }

  /** The handler raised, and the row says so. */
  ghost predicate Bug(behaviour: (nat, Call) -> HandlerResult, call: Call, row: Outcome) {
    exists n :: behaviour(n, call).Raised? && row == RecordOf(behaviour(n, call))
  }

  ghost predicate SomeUnwinds(view: View, stepIdx: nat, uses: seq<Block>, signal: Signal)
    requires forall u | u in uses :: u.ToolUseBlock?
  {
    exists i :: 0 <= i < |uses| && Unwinds(view, stepIdx, uses[i], signal)
  }

  lemma OneUnwinds(view: View, stepIdx: nat, uses: seq<Block>, i: nat, signal: Signal)
    requires (forall u | u in uses :: u.ToolUseBlock?) && i < |uses| && Unwinds(view, stepIdx, uses[i], signal)
    ensures SomeUnwinds(view, stepIdx, uses, signal)
  {
  }

  /** The reply was a tool turn, and one of its calls unwound it. */
  ghost predicate UnwoundBy(view: View, stepIdx: nat, reply: Reply, signal: Signal) {
    && reply.Replied? && reply.response.stop.ToolUse?
    && SomeUnwinds(view, stepIdx, ToolUses(reply.response.content), signal)
  }

  /** What may pass: the transport's failure, a timeout, or a queue that could not be reached. */
  ghost predicate MayPass(view: View, stepIdx: nat, reply: Reply) {
    reply.TransportError? || reply.TimedOut? || UnwoundBy(view, stepIdx, reply, QueueUnavailable)
  }

  /** An attempt ends as the model's reply and the ledger make it end. */
  ghost predicate TriedAs(view: View, stepIdx: nat, reply: Reply, t: Tried) {
    match t
    case Got(response, _) => reply == Replied(response)
    case PassingFailure => MayPass(view, stepIdx, reply)
    case Rebuffed => reply == BadRequest
    case Unwound(signal) => signal != QueueUnavailable && UnwoundBy(view, stepIdx, reply, signal)
  }

  /** How a step ended after so many attempts: as the last reply makes it, with both budgets in view. */
  ghost predicate StepEnds(
    view: View, stepIdx: nat, reply: Reply, limits: RunLimits, retriesUsed: nat, attempts: int, a: Attempt)
  {
    match a
    case Done(response, _, n) => reply == Replied(response) && n == attempts
    case Exhausted(runBudget) =>
      && MayPass(view, stepIdx, reply)
      && (if runBudget then retriesUsed > limits.maxRunRetries else attempts >= limits.maxStepAttempts)
    case Stopped(signal) => signal != QueueUnavailable && UnwoundBy(view, stepIdx, reply, signal)
    case Refused => reply == BadRequest
  }

  /** What a call of `run` has asked: how many requests, and the reply to the latest one. */
  datatype Asked = Asked(requests: int, last: Option<Reply>)

  /** Why a call of `run` ended as it did: what it asked, the ledger and the row after it, the lease. */
  ghost predicate Warranted(
    limits: RunLimits, view: View, asked: Asked, row: RunRow, held: bool, r: Result<RunOutcome, LoopError>)
  {
    || (r == Err(RunUnreadable) && Load(row).Err?)
    || (r == Err(RunNotResumable) && !held && asked.last.Some? && asked.last.value.Replied?)
    || (r == Err(LLMRequestError) && asked.last == Some(BadRequest))
    || (r.Ok? && r.value.status.Completed? && CompletesFor(asked.last, r.value))
    || (r.Ok? && r.value.status.Failed? && FailsFor(limits, view, asked.last, row, r.value))
    || (r.Ok? && r.value.status.Paused? && asked.last.Some?
        && PausesFor(limits, view, asked.requests, asked.last.value, r.value))
  }

  /** A final turn: the answer is all of its texts. */
  ghost predicate CompletesFor(last: Option<Reply>, o: RunOutcome) {
    && last.Some? && last.value.Replied?
    && (last.value.response.stop.EndTurn? || last.value.response.stop.StopSequence?)
    && o.answer.Some? && Joins(last.value.response.content, o.answer.value) && o.error == None
  }

  ghost predicate FailsFor(limits: RunLimits, view: View, last: Option<Reply>, row: RunRow, o: RunOutcome) {
    o.answer == None &&
    (|| (o.error == Some(BudgetExceeded) && !MayStep(limits, o.usage))
     || (last.Some? && last.value.Replied?
         && ((o.error == Some(UpstreamRefusal) && last.value.response.stop.Refusal?)
             || (o.error == Some(UpstreamTruncated) && Truncated(last.value.response))))
     || (o.error == Some(StepFailed) && last.Some? && MayPass(view, |o.steps|, last.value)
         && row.retriesUsed > limits.maxRunRetries)
     || (o.error == Some(ErrorCode.NeedsReview) && last.Some? && UnwoundBy(view, |o.steps|, last.value, Review))
     || (o.error == Some(ToolFailed) && last.Some? && UnwoundBy(view, |o.steps|, last.value, ToolBug)))
  }

  ghost predicate PausesFor(limits: RunLimits, view: View, requests: int, last: Reply, o: RunOutcome) {
    || (o.error == Some(ToolPending) && UnwoundBy(view, |o.steps|, last, ToolInFlight))
    || (o.error == Some(StepFailed) && MayPass(view, |o.steps|, last) && requests >= limits.maxStepAttempts)
  }

  /** Cut off, or a tool turn without a call. */
  predicate Truncated(r: Response) {
    r.stop.MaxTokens? || r.stop.PauseTurn? || (r.stop.ToolUse? && forall b | b in r.content :: !b.ToolUseBlock?)
  }

  lemma NothingToAnswer(content: seq<Block>, results: seq<Block>)
    requires RunMachine.Answers(content, results)
    ensures results == [] <==> forall b | b in content :: !b.ToolUseBlock?
  {
    var at :| CallsAt(content, at) && RunMachine.Names(content, at, results);
    if results != [] { assert content[at[0]] in content; }
  }

  /** Where each of these leaves the worker. */
  predicate Leaves(a: Attempt, k: RunMachine.Worker) {
    match a
    case Done(_, _, n) => k.pc == RunMachine.Asking(n)
    case Exhausted(runBudget) =>
      k.pc == if runBudget then RunMachine.FailedWith(k, k.usage, StepFailed) else RunMachine.Pausing
    case Stopped(ToolInFlight) => k.pc == RunMachine.Pausing
    case Stopped(Review) => k.pc == RunMachine.FailedWith(k, k.usage, ErrorCode.NeedsReview)
    case Stopped(_) => k.pc == RunMachine.FailedWith(k, k.usage, ToolFailed)
    case Refused => k.pc.Stopped?
  }

  function AbortFor(s: Signal): RunMachine.Abort {
    match s
    case ToolInFlight => RunMachine.ToolInFlight
    case Review => RunMachine.Review
    case _ => RunMachine.ToolBug
  }

  /** Trying a step moves the clock, the retry counter and the worker's place, and no more. */
  ghost predicate Tries(d: LoopTrace.Driver, w: RunMachine.World, v: RunMachine.World) {
    && LoopTrace.Follows(d, w, v) && d.o in w.workers && d.o in v.workers
    && v.row == w.row.(retriesUsed := v.row.retriesUsed)
    && LoopTrace.SameWork(w.workers[d.o], v.workers[d.o])
  }

  lemma TriesOn(d: LoopTrace.Driver, w: RunMachine.World, u: RunMachine.World, v: RunMachine.World)
    requires (Tries(d, w, u) || (LoopTrace.Follows(d, w, u) && u == w.(now := u.now))) && Tries(d, u, v)
    ensures Tries(d, w, v)
  {
    LoopTrace.Chain(d, w, u, v);
  }

  predicate HeldBy(row: RunRow, owner: Owner) { row.lease.Some? && row.lease.value.owner == owner }

  /** RUNNING, under this owner's lease. */
  predicate Owns(row: RunRow, owner: Owner) { HeldBy(row, owner) && row.status.Running? }

  /** What the caller is told is what the row says, and the run is nobody's any more. */
  predicate Persisted(outcome: RunOutcome, row: RunRow) {
    && row.status == outcome.status && row.lease.None?
    && (outcome.status.IsTerminal() ==> row.answer == outcome.answer && row.error == outcome.error)
  }

  predicate Stops(k: RunMachine.Worker, l: RunMachine.Worker) { l.pc.Stopped? && LoopTrace.SameLocals(k, l) }

  /** A commit and its renewal: on to the next step or the end, or, the lease lost, nothing more. */
  predicate GoesOn(k: RunMachine.Worker, l: RunMachine.Worker, held: bool)
    requires k.pc.Committing?
  {
    if held then
      var after := RunMachine.AfterRenewal(k.(pc := RunMachine.Renewing(k.pc.step, k.pc.answer)));
      l.pc == after.pc && LoopTrace.SameLocals(after, l)
    else Stops(k, l)
  }

  datatype LoopError = RunNotResumable | LLMRequestError | RunUnreadable

  /** The variables of one `run` call. */
  datatype Locals = Locals(messages: seq<Message>, pending: seq<Message>, usage: RunUsage, steps: seq<StepRecord>)

  predicate Holds(k: RunMachine.Worker, l: Locals) {
    k.messages == l.messages && k.pending == l.pending && k.usage == l.usage && k.steps == l.steps
  }

  predicate AtHead(w: RunMachine.World, o: Owner, l: Locals) {
    RunMachine.At(w, o, RunMachine.Head) && Holds(w.workers[o], l)
  }

  /** A call of the turn, with its result as the model reads it and its record as the step keeps it. */
  predicate KeptCall(use: Block, result: Block, record: ToolCallRecord) {
    use.ToolUseBlock? && result.ToolResultBlock? && Gives(use, result.content, result.isError, Answer(result, record))
  }

  predicate KeptCalls(content: seq<Block>, at: seq<nat>, results: seq<Block>, records: seq<ToolCallRecord>) {
    && |results| == |records| == |at|
    && forall j :: 0 <= j < |at| ==> at[j] < |content| && KeptCall(content[at[j]], results[j], records[j])
  }

  /** One result and one record for every tool call of the turn, wherever it stands in it, in the same order. */
  ghost predicate TurnKept(content: seq<Block>, results: seq<Block>, records: seq<ToolCallRecord>) {
    exists at: seq<nat> :: CallsAt(content, at) && KeptCalls(content, at, results, records)
  }

  lemma KeptIsAnswered(content: seq<Block>, results: seq<Block>, records: seq<ToolCallRecord>)
    requires TurnKept(content, results, records)
    ensures RunMachine.Answers(content, results) && |results| == |records|
  {
    var at :| CallsAt(content, at) && KeptCalls(content, at, results, records);
    assert RunMachine.Names(content, at, results);
  }

  /** The step a reply makes, as it is committed. */
  predicate StepOf(l: Locals, response: Response, attempt: int, step: StepRecord) {
    && step.idx == |l.steps| && step.attempt == attempt
    && step.stop == response.stop && step.usage == response.usage
  }

  predicate SpentOn(before: RunUsage, u: Usage, after: RunUsage) {
    after == RunUsage(
               before.steps + 1, before.input + u.input, before.output + u.output, before.cacheRead + u.cacheRead)
  }

  /** The loop came round with one more step behind it: a tool turn, sent on verbatim with all its results. */
  ghost predicate CameRound(l: Locals, m: Locals, response: Response, attempts: int) {
    var n, k := |l.steps|, |l.messages|;
    && response.stop.ToolUse?
    && |m.steps| == n + 1 && m.steps[..n] == l.steps && StepOf(l, response, attempts, m.steps[n])
    && |m.messages| == k + 2 && m.messages[..k] == l.messages
    && m.messages[k] == Message(Assistant, response.content) && m.messages[k + 1].role == User
    && TurnKept(response.content, m.messages[k + 1].content, m.steps[n].toolCalls)
    && SpentOn(l.usage, response.usage, m.usage) && m.pending == []
  }

  /** One more tool turn behind it, and all that was said before. */
  predicate Advanced(l: Locals, m: Locals) {
    && |m.steps| == |l.steps| + 1 && m.steps[..|l.steps|] == l.steps && m.steps[|l.steps|].stop.ToolUse?
    && |m.messages| > |l.messages| && m.messages[..|l.messages|] == l.messages
  }

  /** What a run that stops short reports: the conversation, the steps and the spending up to there. */
  predicate StopsAt(l: Locals, reply: Option<Reply>, o: RunOutcome) {
    && o.messages == l.messages && o.steps == l.steps
    && if o.error == Some(UpstreamRefusal) || o.error == Some(UpstreamTruncated)
       then reply.Some? && reply.value.Replied? && SpentOn(l.usage, reply.value.response.usage, o.usage)
       else o.usage == l.usage
  }

  /** What a run reports: where it stopped short, or all there was with the final turn and its step. */
  predicate Reports(l: Locals, reply: Option<Reply>, attempts: int, o: RunOutcome) {
    if o.status.Completed? then
      && reply.Some? && reply.value.Replied?
      && o.messages == l.messages + [Message(Assistant, reply.value.response.content)]
      && |o.steps| == |l.steps| + 1 && o.steps[..|l.steps|] == l.steps
      && StepOf(l, reply.value.response, attempts, o.steps[|l.steps|]) && o.steps[|l.steps|].toolCalls == []
      && SpentOn(l.usage, reply.value.response.usage, o.usage)
    else StopsAt(l, reply, o)
  }

  predicate SameStart(k: RunMachine.Worker, l: RunMachine.Worker) {
    k.stepsAtLoad == l.stepsAtLoad && k.retriesAtLoad == l.retriesAtLoad
  }

  function Failure(l: Locals, usage: RunUsage, code: ErrorCode): RunOutcome {
    RunOutcome(RunStatus.Failed, usage, l.messages, l.steps, None, Some(code))
  }

  function ResultsOf(answers: seq<Answer>): (results: seq<Block>)
    ensures |results| == |answers|
  {
    seq(|answers|, i requires 0 <= i < |answers| => answers[i].result)
  }

  function RecordsOf(answers: seq<Answer>): (records: seq<ToolCallRecord>)
    ensures |records| == |answers|
  {
    seq(|answers|, i requires 0 <= i < |answers| => answers[i].record)
  }

  /** The variables with a response's turn appended: verbatim, then every result in one message. */
  function Turned(l: Locals, response: Response, results: seq<Block>): Locals {
    var turn := [Message(Assistant, response.content)]
                + if response.stop.ToolUse? then [Message(User, results)] else [];
    l.(messages := l.messages + turn, pending := l.pending + turn, usage := l.usage.Plus(response.usage))
  }

  /** An answer for every call of the turn; none if it is not a tool turn. */
  ghost predicate InTurn(response: Response, answers: seq<Answer>) {
    if response.stop.ToolUse? then TurnKept(response.content, ResultsOf(answers), RecordsOf(answers)) else answers == []
  }

  /** The messages to send: the stored ones, or the opening made from the query. */
  function Conversation(record: RunRecord): (messages: seq<Message>)
    ensures |messages| > 0 && (record.messages != [] ==> messages == record.messages)
  {
    if record.messages != [] then record.messages else [Message(User, [TextBlock(record.query)])]
  }

  ghost predicate AllWellFormed(c: RunMachine.Config, before: seq<Request>, after: seq<Request>) {
    forall i :: |before| <= i < |after| ==> SoloRun.WellFormedRequest(c, after[i].messages)
  }

  /** Answers told of a turn's calls are kept for every one of them. */
  lemma ToldIsKept(registry: Registry, t: Trace, id: RunId, stepIdx: nat, content: seq<Block>, answers: seq<Answer>)
    requires |answers| == |ToolUses(content)| && ToldSoFar(registry, t, id, stepIdx, ToolUses(content), answers)
    ensures TurnKept(content, ResultsOf(answers), RecordsOf(answers))
  {
    var at := CallsFound(content);
    var uses, results, records := ToolUses(content), ResultsOf(answers), RecordsOf(answers);
    forall j | 0 <= j < |at| ensures KeptCall(content[at[j]], results[j], records[j]) {
      assert Tells(registry, t, id, stepIdx, uses[j], answers[j]);
      assert answers[j] == Answer(results[j], records[j]);
    }
    assert KeptCalls(content, at, results, records);
  }

  lemma ToldInTurn(registry: Registry, t: Trace, id: RunId, stepIdx: nat, response: Response, answers: seq<Answer>)
    requires AllTold(registry, t, id, stepIdx, response, answers)
    ensures InTurn(response, answers)
  {
    if response.stop.ToolUse? { ToldIsKept(registry, t, id, stepIdx, response.content, answers); }
  }

  /** What an attempt would come back with, over the ledger as it is at `b`, is what `d` says. */
  ghost predicate HonestAt(
    d: LoopTrace.Driver, rig: Rig, replies: (nat, Request) -> Reply, id: RunId, b: Side,
    n: nat, messages: seq<Message>, usage: RunUsage, stepIdx: nat, response: Response, answers: seq<Answer>)
  {
    && replies(n, Request(messages, MaxTokensForNextStep(d.c.limits, usage))) == Replied(response)
    && AllTold(rig.registry, b.t, id, stepIdx, response, answers)
    ==> d.says(LoopTrace.Said(messages, usage, stepIdx, response, ResultsOf(answers), RecordsOf(answers)))
  }

  /** Whatever an attempt comes back with from `side` on is what `d` says. */
  ghost predicate Honest(
    d: LoopTrace.Driver, rig: Rig, replies: (nat, Request) -> Reply, id: RunId, side: Side)
  {
    forall b, n, messages, usage, stepIdx, response, answers ::
      Works(rig, Named(rig.registry) && Parsed(replies), side, b) ==>
        HonestAt(d, rig, replies, id, b, n, messages, usage, stepIdx, response, answers)
  }

  /** What an attempt came back with is what `d` says. */
  lemma SaidHonestly(
    d: LoopTrace.Driver, rig: Rig, replies: (nat, Request) -> Reply, id: RunId, side: Side, now: Side,
    n: nat, l: Locals, k: RunMachine.Worker, response: Response, answers: seq<Answer>)
    requires Works(rig, Named(rig.registry) && Parsed(replies), side, now) && Honest(d, rig, replies, id, side)
    requires replies(n, Request(l.messages, MaxTokensForNextStep(d.c.limits, l.usage))) == Replied(response)
    requires AllTold(rig.registry, now.t, id, |l.steps|, response, answers) && Holds(k, l)
    ensures d.says(LoopTrace.Saying(k, response, ResultsOf(answers), RecordsOf(answers)))
  {
    assert HonestAt(d, rig, replies, id, now, n, l.messages, l.usage, |l.steps|, response, answers);
  }

  /** If no more is said than that blocks keep, a provider whose blocks keep is honest. */
  lemma KeepingIsHonest(d: LoopTrace.Driver, rig: Rig, replies: (nat, Request) -> Reply, id: RunId, side: Side)
    requires KeepsBlocks(replies)
    requires forall s :: d.says(s) <==> forall b | b in s.response.content :: Stable(b)
    ensures LoopTrace.Keeps(d) && Honest(d, rig, replies, id, side)
  {
  }

  lemma WorksTwice(rig: Rig, wellFormed: bool, a: Side, b: Side, c: Side)
    requires Works(rig, wellFormed, a, b) && Works(rig, wellFormed, b, c)
    ensures Works(rig, wellFormed, a, c)
  {
    GrewTwice(rig, a, b, c);
  }

  lemma UpdatedTwice<K, V>(m: map<K, V>, k: K, x: V, y: V)
    ensures m[k := x][k := y] == m[k := y]
  {
  }

  datatype Opened = Opened(limits: RunLimits, l: Locals)

  /** The conversation opens with the run's question; with no step behind it and none tried it is that alone. */
  predicate Opens(row: RunRow, l: Locals, asked: int) {
    && |l.messages| > 0 && l.messages[0] == Message(User, [TextBlock(row.query)])
    && (row.steps == [] && asked == 0 ==> |l.messages| == 1)
  }

  /** So does every request, and the first one about a run with no steps is that alone. */
  predicate Asks(row: RunRow, before: seq<Request>, after: seq<Request>) {
    && before <= after
    && (forall i :: |before| <= i < |after| ==>
          |after[i].messages| > 0 && after[i].messages[0] == Message(User, [TextBlock(row.query)]))
    && (row.steps == [] && |after| > |before| ==> after[|before|].messages == [Message(User, [TextBlock(row.query)])])
  }

  lemma AsksOn(row: RunRow, l: Locals, before: seq<Request>, asked: seq<Request>, after: seq<Request>, maxTokens: int)
    requires Opens(row, l, |asked| - |before|) && Asks(row, before, asked)
    requires OnlyAsked(asked, after, Request(l.messages, maxTokens))
    ensures Asks(row, before, after)
  {
    if |asked| == |before| && |after| > |before| && row.steps == [] {
      assert after[|before|] == Request(l.messages, maxTokens);
    }
  }

  /** Between two steps of a call of `run` that began at `w` and has made `asked` requests. */
  ghost predicate Underway(d: LoopTrace.Driver, w: RunMachine.World, v: RunMachine.World, l: Locals, asked: int) {
    match d
    case Driver(c, o, _) =>
      && LoopTrace.Reached(c, w) && LoopTrace.Follows(d, w, v)
      && AtHead(v, o, l) && Owns(v.row, o)
      && Counted(w, v.workers[o], asked) && Opens(w.row, l, asked)
      && (LoopTrace.AllTools(w.row.steps) ==> LoopTrace.AllTools(l.steps))
  }

  predicate Counted(w: RunMachine.World, k: RunMachine.Worker, asked: int) {
    k.stepsAtLoad == |w.row.steps| && k.retriesAtLoad == w.row.retriesUsed && k.requests == asked
  }

  /** Every request opens with the question; if the call began alone on a run of tool turns, each is well formed. */
  ghost predicate WellAsked(
    d: LoopTrace.Driver, w: RunMachine.World, before: seq<Request>, after: seq<Request>)
  {
    match d
    case Driver(c, o, _) =>
      && Asks(w.row, before, after)
      && (LoopTrace.Keeps(d) && LoopTrace.Solo(c, w, o) && LoopTrace.AllTools(w.row.steps) ==>
            AllWellFormed(c, before, after))
  }

  lemma ComesRound(
    d: LoopTrace.Driver, w: RunMachine.World, u: RunMachine.World, v: RunMachine.World, l: Locals, was: int, asked: int)
    requires Underway(d, w, u, l, was) && LoopTrace.Follows(d, u, v) && d.o in v.workers
    requires SameStart(u.workers[d.o], v.workers[d.o])
    requires asked == was + v.workers[d.o].requests - u.workers[d.o].requests
    ensures LoopTrace.Follows(d, w, v)
    ensures l.usage.steps == |l.steps|
    ensures Counted(w, v.workers[d.o], asked)
  {
    LoopTrace.Chain(d, w, u, v);
    LoopTrace.StaysReached(d, w, u);
    LoopTrace.HeadCounts(d.c, u, d.o);
  }

  lemma StaysUnderway(
    d: LoopTrace.Driver, w: RunMachine.World, u: RunMachine.World, v: RunMachine.World, l: Locals, was: int,
    m: Locals, asked: int)
    requires Underway(d, w, u, l, was) && LoopTrace.Follows(d, w, v)
    requires AtHead(v, d.o, m) && Owns(v.row, d.o) && Advanced(l, m)
    requires Counted(w, v.workers[d.o], asked) && asked > 0
    ensures Underway(d, w, v, m, asked)
  {
    assert m.steps == l.steps + [m.steps[|l.steps|]];
    assert m.messages[0] == m.messages[..|l.messages|][0];
  }

  lemma HeadAsks(
    d: LoopTrace.Driver, w: RunMachine.World, u: RunMachine.World, l: Locals,
    before: seq<Request>, asked: seq<Request>, after: seq<Request>, maxTokens: int)
    requires Underway(d, w, u, l, |asked| - |before|) && WellAsked(d, w, before, asked)
    requires OnlyAsked(asked, after, Request(l.messages, maxTokens))
    ensures WellAsked(d, w, before, after)
  {
    AsksOn(w.row, l, before, asked, after, maxTokens);
    if LoopTrace.Keeps(d) && LoopTrace.Solo(d.c, w, d.o) && LoopTrace.AllTools(w.row.steps) {
      LoopTrace.HeadIsWellFormed(d, w, u);
      assert SoloRun.WellFormedRequest(d.c, l.messages);
    }
  }

  /** The steps and the retries that are left. */
  function Allowed(d: LoopTrace.Driver, w: RunMachine.World): nat {
    LoopTrace.Left(d.c.limits.maxSteps, |w.row.steps|) + LoopTrace.Left(d.c.limits.maxRunRetries, w.row.retriesUsed)
  }

  lemma AskedEnough(d: LoopTrace.Driver, w: RunMachine.World, v: RunMachine.World, asked: int)
    requires LoopTrace.Reached(d.c, w) && LoopTrace.Follows(d, w, v)
    requires d.o in v.workers && Counted(w, v.workers[d.o], asked)
    ensures asked <= Allowed(d, w)
  {
    LoopTrace.StaysReached(d, w, v);
    LoopTrace.ReachedBound(d.c, v, d.o);
  }

  /** A rejected request is the one way to this error, and it leaves the run RUNNING under its lease. */
  predicate RejectedIff(
    limits: RunLimits, usage: RunUsage, asked: Asked, row: RunRow, owner: Owner, r: Result<RunOutcome, LoopError>)
  {
    && (asked.requests > 0 <==> MayStep(limits, usage))
    && (asked.requests > 0 ==> (asked.last == Some(BadRequest) <==> r == Err(LLMRequestError)))
    && (r == Err(LLMRequestError) ==> asked.requests > 0 && Owns(row, owner))
  }

  /** What a step that was tried comes to, given how many requests it took and the last reply. */
  ghost predicate Outcomes(
    limits: RunLimits, view: View, attempts: int, reply: Reply, l: Locals, l': Locals, v: RunMachine.World, o: Owner,
    done: Option<Result<RunOutcome, LoopError>>)
  {
    match done
    case None =>
      && o in v.workers && AtHead(v, o, l') && Owns(v.row, o)
      && reply.Replied? && CameRound(l, l', reply.response, attempts)
    case Some(r) =>
      && o in v.workers && v.workers[o].pc.Stopped?
      && (r.Ok? ==> Persisted(r.value, v.row) && Reports(l, Some(reply), attempts, r.value))
      && Warranted(limits, view, Asked(attempts, Some(reply)), v.row, Renewable(v.row, v.now, o), r)
      && (reply == BadRequest <==> r == Err(LLMRequestError))
      && (reply == BadRequest ==> Owns(v.row, o))
  }

  /** Where a call stands that has come round from `start` to `l`. */
  predicate CameFrom(limits: RunLimits, start: Locals, l: Locals, asked: Asked) {
    if asked.requests == 0 then l == start
    else asked.requests > 0 && MayStep(limits, start.usage) && asked.last.Some? && asked.last.value.Replied?
  }

  /** All that is promised of how a call of `run` ends. */
  ghost predicate Ends(
    limits: RunLimits, usage: RunUsage, view: View, asked: Asked, row: RunRow, now: int, owner: Owner,
    r: Result<RunOutcome, LoopError>)
  {
    && (r.Ok? ==> Persisted(r.value, row))
    && Warranted(limits, view, asked, row, Renewable(row, now, owner), r)
    && RejectedIff(limits, usage, asked, row, owner, r)
  }

  lemma LastStep(
    limits: RunLimits, start: Locals, l: Locals, before: int, step: Asked, view: View,
    row: RunRow, now: int, owner: Owner, r: Result<RunOutcome, LoopError>)
    requires before >= 0 && step.requests >= 0
    requires if before == 0 then l == start else MayStep(limits, start.usage)
    requires step.requests > 0 <==> MayStep(limits, l.usage)
    requires MayStep(limits, l.usage) ==> (step.last == Some(BadRequest) <==> r == Err(LLMRequestError))
    requires r == Err(LLMRequestError) ==> MayStep(limits, l.usage) && Owns(row, owner)
    requires step.requests == 0 && before > 0 ==> step.last != Some(BadRequest)
    requires Warranted(limits, view, step, row, Renewable(row, now, owner), r) && (r.Ok? ==> Persisted(r.value, row))
    ensures Ends(limits, start.usage, view, Asked(before + step.requests, step.last), row, now, owner, r)
  {
  }

  /**
   * Where a call of `run` that began at `w` stands after one more round: underway with one more
   * step behind it, or at its end with all that is promised of it.
   */
  ghost predicate RoundsOff(
    limits: RunLimits, d: LoopTrace.Driver, w: RunMachine.World, start: Locals, l: Locals, asked: Asked, view: View,
    v: RunMachine.World, l': Locals, done: Option<Result<RunOutcome, LoopError>>)
  {
    match done
    case None =>
      && Underway(d, w, v, l', asked.requests) && CameFrom(limits, start, l', asked)
      && |l'.steps| == |l.steps| + 1 && |l.steps| < limits.maxSteps
    case Some(r) =>
      && LoopTrace.Follows(d, w, v) && d.o in v.workers && v.workers[d.o].pc.Stopped?
      && asked.requests <= Allowed(d, w)
      && Ends(limits, start.usage, view, asked, v.row, v.now, d.o, r)
  }

  /**
   * What one time round comes to: one more tool turn, or an end. Within budget it is the error
   * of a rejected request exactly if that was the last reply, and then the row is as it was.
   */
  ghost predicate TookStep(
    limits: RunLimits, l: Locals, step: Asked, view: View, v: RunMachine.World, o: Owner, l': Locals,
    done: Option<Result<RunOutcome, LoopError>>)
  {
    match done
    case None =>
      && AtHead(v, o, l') && Owns(v.row, o) && MayStep(limits, l.usage)
      && step.last.Some? && step.last.value.Replied? && Advanced(l, l')
    case Some(r) =>
      && o in v.workers && v.workers[o].pc.Stopped? && (r.Ok? ==> Persisted(r.value, v.row))
      && Warranted(limits, view, step, v.row, Renewable(v.row, v.now, o), r)
      && (MayStep(limits, l.usage) ==> (step.last == Some(BadRequest) <==> r == Err(LLMRequestError)))
      && (r == Err(LLMRequestError) ==> MayStep(limits, l.usage) && Owns(v.row, o))
  }

  lemma RoundOver(
    limits: RunLimits, d: LoopTrace.Driver, w: RunMachine.World, u: RunMachine.World, v: RunMachine.World,
    start: Locals, l: Locals, l': Locals, before: seq<Request>, asked: seq<Request>, after: seq<Request>,
    was: Asked, step: Asked, view: View, done: Option<Result<RunOutcome, LoopError>>)
    requires d.c.limits == limits && Underway(d, w, u, l, was.requests) && CameFrom(limits, start, l, was)
    requires LoopTrace.Follows(d, u, v) && d.o in v.workers && SameStart(u.workers[d.o], v.workers[d.o])
    requires 0 <= step.requests == v.workers[d.o].requests - u.workers[d.o].requests
    requires step.requests > 0 <==> MayStep(limits, l.usage)
    requires step.requests == 0 ==> step.last == was.last
    requires TookStep(limits, l, step, view, v, d.o, l', done)
    requires |asked| - |before| == was.requests && WellAsked(d, w, before, asked)
    requires OnlyAsked(asked, after, Request(l.messages, MaxTokensForNextStep(limits, l.usage)))
    ensures WellAsked(d, w, before, after)
    ensures RoundsOff(limits, d, w, start, l, Asked(was.requests + step.requests, step.last), view, v, l', done)
  {
    HeadAsks(d, w, u, l, before, asked, after, MaxTokensForNextStep(limits, l.usage));
    ComesRound(d, w, u, v, l, was.requests, was.requests + step.requests);
    if done.None? {
      StaysUnderway(d, w, u, v, l, was.requests, l', was.requests + step.requests);
    } else {
      AskedEnough(d, w, v, was.requests + step.requests);
      LastStep(limits, start, l, was.requests, step, view, v.row, v.now, d.o, done.value);
    }
  }

  /** What was asked beyond `before`: this request, and nothing else. */
  predicate OnlyAsked(before: seq<Request>, after: seq<Request>, r: Request) {
    before <= after && forall i :: |before| <= i < |after| ==> after[i] == r
  }

  class AgentLoop {
    const llm: LanguageModel
    const registry: Registry
    const store: PostgresRunStore
    const ledger: PostgresToolLedger
    const tools: Handlers
    const queue: FakeTaskQueue
    const clock: Clock
    const absence: Absence
    const backoff: BackoffPolicy
    const rng: nat -> Draw
    const leaseTtl: int
    ghost var ran: seq<TaskData>    // every invocation this loop saw run, inline or delivered

    constructor (
      llm: LanguageModel, store: PostgresRunStore, queue: FakeTaskQueue, clock: Clock, absence: Absence,
      backoff: BackoffPolicy, rng: nat -> Draw, leaseTtl: int)
      requires store.Valid() && queue.ledger.Valid() && backoff.Valid()
      ensures Valid() && this.llm == llm && this.store == store && this.queue == queue && this.clock == clock
      ensures this.absence == absence
      ensures this.backoff == backoff && this.leaseTtl == leaseTtl
    {
      this.llm, this.store, this.queue, this.clock, this.absence := llm, store, queue, clock, absence;
      registry, ledger, tools := queue.registry, queue.ledger, queue.tools;
      this.backoff, this.rng, this.leaseTtl := backoff, rng, leaseTtl;
      ran := [];
    }

    ghost predicate Valid()
      reads this, store, ledger, queue
    {
      && store.Valid() && ledger.Valid() && backoff.Valid()
      && queue.ledger == ledger && queue.tools == tools && queue.registry == registry
    }

    function Ledger(): Trace
      reads ledger, tools
    {
      Trace(ledger.rows, tools.started)
    }

    function Tools(): Rig
      reads this
    {
      Rig(registry, tools.behaviour)
    }

    ghost function Now(): Side
      reads this, ledger, tools, queue, clock
    {
      Side(Ledger(), queue.dispatched, queue.undelivered, queue.delivered, ran, clock.time)
    }

    /** Tool names and the arguments of every call are such that a call's key is its own. */
    ghost predicate WellFormed() { Named(registry) && Parsed(llm.replies) }

    function ViewOf(id: RunId): View
      reads this, ledger, tools
    {
      View(Tools(), Ledger(), id)
    }

    /** The reply to the latest request. */
    function LastReply(): Reply
      reads llm
      requires |llm.requests| > 0
    {
      var n := |llm.requests| - 1;
      llm.replies(n, llm.requests[n])
    }

    function Reply(): Option<Reply>
      reads llm
    {
      if |llm.requests| == 0 then None else Some(LastReply())
    }

    /** `_result_from`: a row under review is not a result. */
    function ResultFrom(use: Block, o: Outcome): Result<Answer, Signal>
      requires use.ToolUseBlock?
    {
      if o.status.NeedsReview? then Err(Review) else Ok(AnswerWith(use, Recorded(o), o.isError))
    }

    /** One sleep of a wait, clamped to what is left of it, and what the worker does meanwhile. */
    method SleepOnce(interval: real, deadline: real) returns (next: real)
      requires Valid() && IsInterval(interval) && clock.time < deadline
      modifies ledger, tools, queue, clock, this`ran
      ensures Valid() && Grew(Tools(), old(Now()), Now()) && queue.dispatched == old(queue.dispatched)
      ensures StaysKeyed(old(Now()), Now()) && OnlyDelivered(old(Now()), Now())
      ensures clock.naps == old(clock.naps) + [Nap(old(clock.time), Ask(interval, deadline - old(clock.time)))]
      ensures IsInterval(next)
      ensures SleepsLeft(next, deadline - clock.time) < SleepsLeft(interval, deadline - old(clock.time))
    {
      ghost var before := |queue.delivered|;
      var woken := clock.Sleep(Ask(interval, deadline - clock.time));
      next := Backed(interval);
      SleepsDwindle(interval, deadline - old(clock.time), clock.time - old(clock.time));
      if woken {
        ghost var due := queue.undelivered;
        queue.DeliverAll();
        assert queue.delivered[before..] == due;
        ran := ran + due;
        assert ran[|old(ran)|..] == due;
      } else {
        assert queue.delivered[before..] == [];
        StandsStill(Tools(), old(Now()));
      }
    }

    /** A sleep and a look, in a wait that began at `start`. */
    method PollOnce(interval: real, key: Key, deadline: real, ghost start: Side)
      returns (next: real, outcome: Option<Outcome>)
      requires Valid() && IsInterval(interval) && clock.time < deadline
      requires Grew(Tools(), start, Now()) && StaysKeyed(start, Now()) && OnlyDelivered(start, Now())
      requires queue.dispatched == start.dispatched
      modifies ledger, tools, queue, clock, this`ran
      ensures Valid() && Grew(Tools(), start, Now()) && StaysKeyed(start, Now()) && OnlyDelivered(start, Now())
      ensures queue.dispatched == start.dispatched && outcome == Lookup(ledger.rows, key)
      ensures clock.naps == old(clock.naps) + [Nap(old(clock.time), Ask(interval, deadline - old(clock.time)))]
      ensures IsInterval(next)
      ensures SleepsLeft(next, deadline - clock.time) < SleepsLeft(interval, deadline - old(clock.time))
    {
      ghost var mid := Now();
      next := SleepOnce(interval, deadline);
      GrewTwice(Tools(), start, mid, Now());
      outcome := ledger.LookupRow(key);
    }

    /** Poll until the row is closed; no sleep runs past the deadline. */
    method AwaitRow(key: Key, found: Option<Outcome>, deadline: real) returns (r: Result<Outcome, Signal>)
      requires Valid()
      requires found.Some? ==> found == Lookup(ledger.rows, key)
      modifies ledger, tools, queue, clock, this`ran
      ensures Valid() && Grew(Tools(), old(Now()), Now()) && queue.dispatched == old(queue.dispatched)
      ensures StaysKeyed(old(Now()), Now()) && OnlyDelivered(old(Now()), Now())
      ensures r.Ok? ==> Lookup(ledger.rows, key) == Some(r.value) && !r.value.status.Pending?
      ensures found.Some? && !found.value.status.Pending? ==>
                r == Ok(found.value) && clock.naps == old(clock.naps) && Ledger() == old(Ledger())
      ensures r.Err? ==> r.error == ToolInFlight && deadline <= clock.time
      ensures r.Err? && Settled(Ledger(), key) <==>
                found.None? && deadline <= old(clock.time) && Settled(old(Ledger()), key)
      ensures EndBy(old(clock.naps), clock.naps, deadline)
      ensures |clock.naps| <= |old(clock.naps)| + SleepsLeft(POLL_MIN_SECONDS, deadline - old(clock.time))
    {
      ghost var start := Now();
      ghost var allowed := |clock.naps| + SleepsLeft(POLL_MIN_SECONDS, deadline - clock.time);
      StandsStill(Tools(), start);
      var interval, outcome := POLL_MIN_SECONDS, found;
      while outcome.None? || !outcome.value.IsTerminal()
        invariant Valid() && IsInterval(interval)
        invariant Grew(Tools(), start, Now()) && StaysKeyed(start, Now()) && OnlyDelivered(start, Now())
        invariant queue.dispatched == start.dispatched
        invariant (outcome == found && Now().t == start.t && clock.time == start.time)
                  || (outcome == Lookup(ledger.rows, key) && start.time < deadline)
        invariant found.Some? && !found.value.status.Pending? ==>
                    outcome == found && clock.naps == old(clock.naps) && Ledger() == old(Ledger())
        invariant EndBy(old(clock.naps), clock.naps, deadline)
        invariant |clock.naps| + SleepsLeft(interval, deadline - clock.time) <= allowed
        decreases SleepsLeft(interval, deadline - clock.time)
      {
        if deadline - clock.time <= 0.0 { return Err(ToolInFlight); }
        interval, outcome := PollOnce(interval, key, deadline, start);
      }
      r := Ok(outcome.value);
    }

    /** Queue the call, if nobody has claimed it. */
    method Dispatch(call: Call, key: Key) returns (found: Option<Outcome>, accepted: bool)
      requires Valid()
      modifies ledger, tools, queue, this`ran
      ensures Valid() && Grew(Tools(), old(Now()), Now()) && clock.time == old(clock.time)
      ensures Keyed(TaskData(call, key)) ==> StaysKeyed(old(Now()), Now())
      ensures found == Lookup(old(ledger.rows), key) && (found.Some? ==> found == Lookup(ledger.rows, key))
      ensures accepted <==> found.Some? || !queue.mode.Unavailable?
      ensures queue.dispatched == old(queue.dispatched)
                + if found.Some? || queue.mode.Unavailable? then [] else [TaskData(call, key)]
      ensures OnlyDelivered(old(Now()), Now())
      ensures found.Some? || !queue.mode.Immediate? ==> Ledger() == old(Ledger())
      ensures found.None? ==> (Settled(Ledger(), key) <==> queue.mode.Immediate? && Runnable(registry, TaskData(call, key)))
    {
      ghost var start := Now();
      found := ledger.LookupRow(key);
      StandsStill(Tools(), start);
      if found.Some? { return found, true; }
      accepted := queue.EnqueueTool(TaskData(call, key));
      if accepted && queue.mode.Immediate? { ran := ran + [TaskData(call, key)]; }
      SentAtOnce(Tools(), start, Now(), TaskData(call, key), queue.mode.Immediate?);
    }

    /**
     * Dispatch and wait. Only a call with no row is queued; the loop runs nothing itself, so
     * all that changes is what the deliveries change; and what comes back is read off a
     * closed row that is not under review. A row closed before the call, as when the tool ran
     * while the run was dead, answers it at once. A call that is closed already is reported as in
     * flight in one case: it was queued just now, it ran at once, and there was no time left.
     */
    method ExecuteDurable(call: Call, key: Key, use: Block, deadline: real)
      returns (r: Result<Answer, Signal>)
      requires Valid() && use.ToolUseBlock?
      modifies ledger, tools, queue, clock, this`ran
      ensures Valid() && Grew(Tools(), old(Now()), Now())
      ensures OnlyDelivered(old(Now()), Now())
      ensures Keyed(TaskData(call, key)) ==> StaysKeyed(old(Now()), Now())
      ensures queue.dispatched == old(queue.dispatched)
                + if key in old(ledger.rows) || queue.mode.Unavailable? then [] else [TaskData(call, key)]
      ensures r.Ok? ==> Answered(Ledger(), key)
                        && r.value == AnswerWith(use, Recorded(ledger.rows[key]), ledger.rows[key].isError)
      ensures r.Ok? ==> (ledger.rows[key].status.Succeeded? || ledger.rows[key].status.Failed?)
                        && ledger.rows[key].result.Some?
                        && Gives(use, ledger.rows[key].result.value, ledger.rows[key].isError, r.value)
      ensures r == Err(Review) ==> key in ledger.rows && ledger.rows[key].status.NeedsReview?
      ensures key in old(ledger.rows) && !old(ledger.rows)[key].status.Pending? ==>
                && Ledger() == old(Ledger()) && clock.naps == old(clock.naps)
                && if old(ledger.rows)[key].status.NeedsReview? then r == Err(Review) else r.Ok?
      ensures r == Err(ToolInFlight) ==> deadline <= clock.time
      ensures r == Err(ToolInFlight) && Settled(Ledger(), key) <==>
                && key !in old(ledger.rows) && queue.mode.Immediate? && Runnable(registry, TaskData(call, key))
                && deadline <= old(clock.time)
      ensures r == Err(QueueUnavailable) <==> queue.mode.Unavailable? && key !in old(ledger.rows)
      ensures r == Err(QueueUnavailable) ==> Ledger() == old(Ledger())
      ensures r != Err(ToolBug)
      ensures EndBy(old(clock.naps), clock.naps, deadline)
      ensures |clock.naps| <= |old(clock.naps)| + SleepsLeft(POLL_MIN_SECONDS, deadline - old(clock.time))
    {
      ghost var start := Now();
      var found, accepted := Dispatch(call, key);
      if !accepted { return Err(QueueUnavailable); }
      ghost var mid := Now();
      var waited := AwaitRow(key, found, deadline);
      GrewTwice(Tools(), start, mid, Now());
      if waited.Err? { return Err(waited.error); }
      r := ResultFrom(use, waited.value);
    }

    /** An inline call: claimed, executed and recorded here, or answered from its row. */
    method ExecuteInline(call: Call, key: Key, use: Block) returns (r: Result<Answer, Signal>)
      requires Valid() && use.ToolUseBlock? && Accepts(registry, call)
      modifies ledger, tools, this`ran
      ensures Valid() && Grew(Tools(), old(Now()), Now()) && ran == old(ran) + [TaskData(call, key)]
      ensures Keyed(TaskData(call, key)) ==> StaysKeyed(old(Now()), Now())
      ensures r.Ok? ==> Answered(Ledger(), key)
                        && r.value == AnswerWith(use, Recorded(ledger.rows[key]), ledger.rows[key].isError)
      ensures r.Err? ==> key in ledger.rows
                         && if r.error.ToolBug? then Bug(tools.behaviour, call, ledger.rows[key])
                            else r.error.Review? && ledger.rows[key].status.NeedsReview?
      ensures var was, effect := Lookup(old(ledger.rows), key), registry[call.tool].effect;
              && EndsInline(was, effect, use, tools.behaviour(|old(tools.started)|, call), r)
              && tools.started == old(tools.started) + if StartsHandler(was, effect) then [key] else []
    {
      ghost var start := Now();
      var outcome := ExecuteInvocation(registry, ledger, tools, call, key);
      ran := ran + [TaskData(call, key)];
      SentAtOnce(Tools(), start, Now(), TaskData(call, key), true);
      if outcome.Err? {
        assert Bug(tools.behaviour, call, ledger.rows[key]);
        return Err(ToolBug);
      }
      r := ResultFrom(use, outcome.value);
    }

    /**
     * One call, by whichever route; a bad call never reaches the ledger, an inline one never
     * the queue. On return the model's answer is the ledger's, or what unwound the call is.
     * The handler of an inline call that has not been made at this step starts.
     */
    method ExecuteOne(id: RunId, stepIdx: nat, use: Block, deadline: real) returns (r: Result<Answer, Signal>)
      requires Valid() && use.ToolUseBlock?
      modifies ledger, tools, queue, clock, this`ran
      ensures Valid() && Grew(Tools(), old(Now()), Now())
      ensures Named(registry) && Json.Valid(use.input) ==> StaysKeyed(old(Now()), Now())
      ensures r.Ok? ==> Tells(registry, Ledger(), id, stepIdx, use, r.value)
      ensures r.Err? ==> Unwinds(ViewOf(id), stepIdx, use, r.error)
      ensures r == Err(ToolInFlight) ==> deadline <= clock.time
      ensures RoutesRightly(registry, use, RouteOf(registry, use))
      ensures var route := RouteOf(registry, use);
              && (route.Rejected? ==> RejectedAs(use, r) && ran == old(ran) && queue.dispatched == old(queue.dispatched)
                                      && Ledger() == old(Ledger()))
              && (route.Routed? && !route.spec.durable ==>
                    && ran == old(ran) + [TaskData(Call(Decimal(id), stepIdx, route.tool, use.input),
                                                   KeyAt(id, stepIdx, route.tool, use))]
                    && queue.dispatched == old(queue.dispatched) && queue.delivered == old(queue.delivered))
              && (route.Routed? && route.spec.durable ==>
                    && OnlyDelivered(old(Now()), Now())
                    && queue.dispatched == old(queue.dispatched)
                         + if KeyAt(id, stepIdx, route.tool, use) in old(ledger.rows) || queue.mode.Unavailable? then []
                           else [TaskData(Call(Decimal(id), stepIdx, route.tool, use.input),
                                          KeyAt(id, stepIdx, route.tool, use))])
      ensures var route := RouteOf(registry, use);
              route.Routed? && !route.spec.durable ==>
                var key := KeyAt(id, stepIdx, route.tool, use);
                var was := Lookup(old(ledger.rows), key);
                var h := tools.behaviour(|old(tools.started)|, Call(Decimal(id), stepIdx, route.tool, use.input));
                && EndsInline(was, route.spec.effect, use, h, r)
                && tools.started == old(tools.started) + if StartsHandler(was, route.spec.effect) then [key] else []
      ensures var route := RouteOf(registry, use);
              route.Routed? && !route.spec.durable && NotCalledYet(registry, old(ledger.rows), id, stepIdx, use) ==>
                tools.started == old(tools.started) + [KeyAt(id, stepIdx, route.tool, use)]
      ensures var route := RouteOf(registry, use);
              route.Routed? && route.spec.durable && r.Ok? ==>
                var key := KeyAt(id, stepIdx, route.tool, use);
                && key in ledger.rows && (ledger.rows[key].status.Succeeded? || ledger.rows[key].status.Failed?)
                && ledger.rows[key].result.Some?
                && Gives(use, ledger.rows[key].result.value, ledger.rows[key].isError, r.value)
      ensures EndBy(old(clock.naps), clock.naps, deadline)
    {
      StandsStill(Tools(), Now());
      RouteIsRight(registry, use);
      var route := RouteOf(registry, use);
      if route.Rejected? { return Ok(AnswerWith(use, Explain(route.why), true)); }
      var call := CallOf(id, stepIdx, route.tool, use);
      var key := KeyOf(call);
      KeysOwnCall(registry, id, stepIdx, use);
      if route.spec.durable {
        r := ExecuteDurable(call, key, use, deadline);
        return;
      }
      if NotCalledYet(registry, ledger.rows, id, stepIdx, use) { NoRowYet(registry, ledger.rows, id, stepIdx, use); }
      r := ExecuteInline(call, key, use);
    }

    /** The next call of a turn whose first ones have been answered since `start`. */
    method ExecuteNext(
      id: RunId, stepIdx: nat, requested: seq<Block>, answers: seq<Answer>, deadline: real, ghost start: Side)
      returns (r: Result<Answer, Signal>)
      requires Valid() && (forall u | u in requested :: u.ToolUseBlock?) && |answers| < |requested|
      requires Grew(Tools(), start, Now()) && ToldSoFar(registry, Ledger(), id, stepIdx, requested, answers)
      requires Named(registry) && ValidInputs(requested) ==> StaysKeyed(start, Now())
      modifies ledger, tools, queue, clock, this`ran
      ensures Valid() && Grew(Tools(), start, Now())
      ensures Named(registry) && ValidInputs(requested) ==> StaysKeyed(start, Now())
      ensures r.Ok? ==> ToldSoFar(registry, Ledger(), id, stepIdx, requested, answers + [r.value])
      ensures r.Err? ==> SomeUnwinds(ViewOf(id), stepIdx, requested, r.error)
      ensures r == Err(ToolInFlight) ==> deadline <= clock.time
      ensures EndBy(old(clock.naps), clock.naps, deadline)
    {
      ghost var mid := Now();
      assert requested[|answers|] in requested;
      r := ExecuteOne(id, stepIdx, requested[|answers|], deadline);
      WorkGoesOn(Tools(), start, mid, Now(), id, stepIdx, requested, answers);
      if r.Ok? { ToldOneMore(registry, Ledger(), id, stepIdx, requested, answers, r.value); }
      else { OneUnwinds(ViewOf(id), stepIdx, requested, |answers|, r.error); }
    }

    /**
     * Every call of a turn, in the order asked. If all of them come back there is one answer
     * for each tool call of the content, wherever it stands, and all of them are still the
     * ledger's at the end; if not, one of them says why.
     */
    method ExecuteAll(
      id: RunId, stepIdx: nat, requested: seq<Block>, deadline: real, ghost content: seq<Block>)
      returns (r: Result<seq<Answer>, Signal>)
      requires Valid() && requested == ToolUses(content)
      modifies ledger, tools, queue, clock, this`ran
      ensures Valid() && Grew(Tools(), old(Now()), Now())
      ensures Named(registry) && ValidInputs(requested) ==> StaysKeyed(old(Now()), Now())
      ensures r.Ok? ==>
                |r.value| == |requested| && ToldSoFar(registry, Ledger(), id, stepIdx, requested, r.value)
      ensures r.Ok? ==> TurnKept(content, ResultsOf(r.value), RecordsOf(r.value))
      ensures r.Err? ==> SomeUnwinds(ViewOf(id), stepIdx, requested, r.error)
      ensures r == Err(ToolInFlight) ==> deadline <= clock.time
      ensures EndBy(old(clock.naps), clock.naps, deadline)
    {
      var answers: seq<Answer> := [];
      ghost var start := Now();
      StandsStill(Tools(), start);
      for n := 0 to |requested|
        invariant Valid() && Grew(Tools(), start, Now())
        invariant Named(registry) && ValidInputs(requested) ==> StaysKeyed(start, Now())
        invariant |answers| == n && ToldSoFar(registry, Ledger(), id, stepIdx, requested, answers)
        invariant EndBy(old(clock.naps), clock.naps, deadline)
      {
        var answer := ExecuteNext(id, stepIdx, requested, answers, deadline, start);
        if answer.Err? { return Err(answer.error); }
        answers := answers + [answer.value];
      }
      ToldIsKept(registry, Ledger(), id, stepIdx, content, answers);
      r := Ok(answers);
    }

    // --- One step --------------------------------------------------------------------

    /** The run's row and the database's clock are those of the machine's state. */
    ghost predicate Tied(id: RunId, w: RunMachine.World)
      reads store
    {
      id in store.runs && store.runs[id] == w.row && store.now == w.now
    }

    ghost predicate Driving(d: LoopTrace.Driver, owner: Owner) {
      d.o == owner && d.c.backoff == backoff && d.c.ttl == leaseTtl
    }

    method Elapse(id: RunId, ghost d: LoopTrace.Driver, ghost w: RunMachine.World)
      returns (ghost v: RunMachine.World)
      requires Valid() && Tied(id, w)
      modifies store`now, absence
      ensures Valid() && Tied(id, v) && v == w.(now := v.now) && LoopTrace.Follows(d, w, v)
    {
      var seconds := absence.Next();
      store.Tick(store.now + seconds);
      v := LoopTrace.Ticks(d, w, store.now);
    }

    /** A failed attempt is paid for before it is repeated, from the run's budget as well. */
    method ChargeFailure(
      id: RunId, owner: Owner, attempt: nat, limits: RunLimits, ghost d: LoopTrace.Driver, ghost w: RunMachine.World)
      returns (stop: Option<Attempt>, ghost v: RunMachine.World)
      requires Valid() && Tied(id, w) && Driving(d, owner) && d.c.limits == limits
      requires owner in w.workers && w.workers[owner].pc == RunMachine.Asking(attempt)
      modifies store`runs, clock
      ensures Valid() && Tied(id, v) && store.runs == old(store.runs)[id := v.row]
      ensures LoopTrace.Moved(d, w, v) && v.row == w.row.(retriesUsed := v.row.retriesUsed)
      ensures LoopTrace.SameWork(w.workers[owner], v.workers[owner])
      ensures v.workers[owner].requests == w.workers[owner].requests + if stop.None? then 1 else 0
      ensures if stop.Some? then stop.value.Exhausted? && Leaves(stop.value, v.workers[owner])
                                 && (if stop.value.runBudget then v.row.retriesUsed > limits.maxRunRetries
                                     else attempt >= limits.maxStepAttempts)
              else v.workers[owner].pc == RunMachine.Asking(attempt + 1) && attempt < limits.maxStepAttempts
      ensures clock.naps == old(clock.naps)
                + if stop.Some? then []
                  else [Nap(old(clock.time), backoff.DelayFor(attempt + 1, rng(|old(clock.naps)|)))]
      ensures old(clock.time) <= clock.time
    {
      ghost var u := LoopTrace.Fails(d, w);
      if attempt + 1 > limits.maxStepAttempts { return Some(Exhausted(false)), u; }
      var charged := store.ChargeRetry(id);
      var random := rng(|clock.naps|);
      v := LoopTrace.Charges(d, u, random);
      LoopTrace.Chain(d, w, u, v);
      if charged.value > limits.maxRunRetries { return Some(Exhausted(true)), v; }
      var _ := clock.Sleep(backoff.DelayFor(attempt + 1, random));
      stop := None;
    }

    /** One attempt: ask the model, and make the calls it asks for. */
    method TryOnce(id: RunId, stepIdx: nat, request: Request, stepTimeout: real) returns (t: Tried)
      requires Valid()
      modifies llm, ledger, tools, queue, clock, this`ran
      ensures Valid() && llm.requests == old(llm.requests) + [request]
      ensures TriedAs(ViewOf(id), stepIdx, llm.replies(|old(llm.requests)|, request), t)
      ensures t == Unwound(ToolInFlight) ==> old(clock.time) + WaitBudget(stepTimeout) <= clock.time
      ensures EndBy(old(clock.naps), clock.naps, old(clock.time) + WaitBudget(stepTimeout))
      ensures Named(registry) && Parsed(llm.replies) ==> StaysKeyed(old(Now()), Now())
      ensures t.Got? ==>
                AllTold(registry, Ledger(), id, stepIdx, t.response, t.answers) && InTurn(t.response, t.answers)
      ensures Grew(Tools(), old(Now()), Now())
    {
      StandsStill(Tools(), Now());
      var deadline := clock.time + WaitBudget(stepTimeout);
      var reply := llm.Complete(request.messages, request.maxTokens);
      match reply {
        case BadRequest => return Rebuffed;
        case TransportError => return PassingFailure;
        case TimedOut => return PassingFailure;
        case Replied(response) =>
          if !response.stop.ToolUse? { return Got(response, []); }
          var answers := ExecuteAll(id, stepIdx, ToolUses(response.content), deadline, response.content);
          if answers.Ok? { return Got(response, answers.value); }
          t := if answers.error == QueueUnavailable then PassingFailure else Unwound(answers.error);
      }
    }

    /** The sleep before a retry: as long as the policy says for the attempt to come. */
    function Backoff(again: bool, attempt: nat, draw: nat, time: real): seq<Nap>
      requires backoff.Valid()
    {
      if again then [Nap(time, backoff.DelayFor(attempt + 1, rng(draw)))] else []
    }

    /** What follows from an attempt: the step is over, or another attempt is paid for. */
    method AfterTry(
      id: RunId, owner: Owner, tried: Tried, attempt: nat, limits: RunLimits,
      ghost view: View, ghost stepIdx: nat, ghost reply: Reply, ghost d: LoopTrace.Driver, ghost w: RunMachine.World)
      returns (a: Option<Attempt>, ghost v: RunMachine.World)
      requires Valid() && Tied(id, w) && Driving(d, owner) && d.c.limits == limits
      requires owner in w.workers && w.workers[owner].pc == RunMachine.Asking(attempt)
      requires TriedAs(view, stepIdx, reply, tried)
      modifies store`runs, clock
      ensures Valid() && Tied(id, v) && store.runs == old(store.runs)[id := v.row] && old(clock.time) <= clock.time
      ensures Tries(d, w, v)
      ensures v.workers[owner].requests == w.workers[owner].requests + if a.None? then 1 else 0
      ensures if a.Some? then Leaves(a.value, v.workers[owner])
              else v.workers[owner].pc == RunMachine.Asking(attempt + 1) && attempt < limits.maxStepAttempts
      ensures a.Some? ==> StepEnds(view, stepIdx, reply, limits, v.row.retriesUsed, attempt, a.value)
      ensures a.Some? && a.value.Done? <==> tried.Got?
      ensures tried.Got? ==> a.value.response == tried.response && a.value.answers == tried.answers
      ensures a == Some(Stopped(ToolInFlight)) ==> tried == Unwound(ToolInFlight)
      ensures clock.naps == old(clock.naps) + Backoff(a.None?, attempt, |old(clock.naps)|, old(clock.time))
    {
      LoopTrace.Stay(d, w);
      match tried {
        case Got(response, answers) => return Some(Done(response, answers, attempt)), w;
        case PassingFailure => a, v := ChargeFailure(id, owner, attempt, limits, d, w);
        case Rebuffed =>
          v := LoopTrace.Crashes(d, w);
          a := Some(Refused);
        case Unwound(signal) =>
          v := LoopTrace.GivesUp(d, w, AbortFor(signal));
          a := Some(Stopped(signal));
      }
    }

    /** An attempt waits for its tools no later than the deadline, and then, before a retry, as the policy says. */
    predicate Slept(before: seq<Nap>, deadline: real, after: seq<Nap>, again: bool, attempt: nat)
      requires backoff.Valid()
    {
      var n := |after| - if again then 1 else 0;
      && n >= |before| && EndBy(before, after[..n], deadline)
      && (again ==> after[n].asked == backoff.DelayFor(attempt + 1, rng(n)))
    }

    lemma SleepsAdd(before: seq<Nap>, deadline: real, mid: seq<Nap>, again: bool, attempt: nat, time: real)
      requires backoff.Valid() && EndBy(before, mid, deadline)
      ensures Slept(before, deadline, mid + Backoff(again, attempt, |mid|, time), again, attempt)
    {
      assert (mid + Backoff(again, attempt, |mid|, time))[..|mid|] == mid;
    }

    /** One attempt and what follows from it: the step is over, or another attempt is paid for. */
    method AttemptOnce(
      id: RunId, owner: Owner, stepIdx: nat, request: Request, attempt: nat, limits: RunLimits,
      ghost d: LoopTrace.Driver, ghost w: RunMachine.World)
      returns (a: Option<Attempt>, ghost v: RunMachine.World)
      requires Valid() && Tied(id, w) && Driving(d, owner) && d.c.limits == limits
      requires owner in w.workers && w.workers[owner].pc == RunMachine.Asking(attempt)
      modifies llm, store`runs, store`now, absence, ledger, tools, queue, clock, this`ran
      ensures Valid() && Tied(id, v) && store.runs == old(store.runs)[id := v.row]
      ensures Tries(d, w, v) && llm.requests == old(llm.requests) + [request]
      ensures v.workers[owner].requests == w.workers[owner].requests + if a.None? then 1 else 0
      ensures if a.Some? then Leaves(a.value, v.workers[owner])
              else v.workers[owner].pc == RunMachine.Asking(attempt + 1) && attempt < limits.maxStepAttempts
      ensures a.Some? ==>
                StepEnds(ViewOf(id), stepIdx, LastReply(), limits, v.row.retriesUsed, attempt, a.value)
      ensures a == Some(Stopped(ToolInFlight)) ==> old(clock.time) + WaitBudget(limits.stepTimeout) <= clock.time
      ensures Slept(old(clock.naps), old(clock.time) + WaitBudget(limits.stepTimeout), clock.naps, a.None?, attempt)
      ensures Named(registry) && Parsed(llm.replies) ==> StaysKeyed(old(Now()), Now())
      ensures a.Some? && a.value.Done? ==> AllTold(registry, Ledger(), id, stepIdx, a.value.response, a.value.answers)
      ensures Grew(Tools(), old(Now()), Now())
    {
      var tried := TryOnce(id, stepIdx, request, limits.stepTimeout);
      ghost var start, mid, naps, view, reply := old(Now()), Now(), clock.naps, ViewOf(id), LastReply();
      ghost var u := Elapse(id, d, w);
      a, v := AfterTry(id, owner, tried, attempt, limits, view, stepIdx, reply, d, u);
      assert view == ViewOf(id) && reply == LastReply();
      SleepsAdd(old(clock.naps), old(clock.time) + WaitBudget(limits.stepTimeout), naps, a.None?, attempt, mid.time);
      TimePasses(Tools(), start, mid, Now());
      TriesOn(d, w, u, v);
    }

    /** What holds from attempt to attempt of a step that began at `w`, with these runs, requests and tools' side. */
    ghost predicate MidStep(
      id: RunId, d: LoopTrace.Driver, w: RunMachine.World, v: RunMachine.World,
      runs: map<RunId, RunRow>, before: seq<Request>, start: Side, request: Request)
      reads this, llm, store, ledger, tools, queue, clock
    {
      && Valid() && Tied(id, v) && store.runs == runs[id := v.row] && Tries(d, w, v)
      && OnlyAsked(before, llm.requests, request)
      && Works(Tools(), WellFormed(), start, Now())
    }

    /** One more attempt of a step that began at `w`. */
    method AttemptAgain(
      id: RunId, owner: Owner, stepIdx: nat, request: Request, attempt: nat, limits: RunLimits,
      ghost runs: map<RunId, RunRow>, ghost before: seq<Request>, ghost start: Side,
      ghost d: LoopTrace.Driver, ghost w: RunMachine.World, ghost u: RunMachine.World)
      returns (a: Option<Attempt>, ghost v: RunMachine.World)
      requires MidStep(id, d, w, u, runs, before, start, request) && Driving(d, owner) && d.c.limits == limits
      requires u.workers[owner].pc == RunMachine.Asking(attempt)
      requires |llm.requests| == |before| + attempt - 1
      requires u.workers[owner].requests == w.workers[owner].requests + attempt - 1
      modifies llm, store`runs, store`now, absence, ledger, tools, queue, clock, this`ran
      ensures MidStep(id, d, w, v, runs, before, start, request)
      ensures |llm.requests| == |before| + attempt && llm.requests[|llm.requests| - 1] == request
      ensures v.workers[owner].requests == w.workers[owner].requests + if a.None? then attempt else attempt - 1
      ensures if a.Some? then Leaves(a.value, v.workers[owner])
              else v.workers[owner].pc == RunMachine.Asking(attempt + 1) && attempt < limits.maxStepAttempts
      ensures a.Some? ==>
                StepEnds(ViewOf(id), stepIdx, LastReply(), limits, v.row.retriesUsed, attempt, a.value)
      ensures a == Some(Stopped(ToolInFlight)) ==> start.time + WaitBudget(limits.stepTimeout) <= clock.time
      ensures a.Some? && a.value.Done? ==> AllTold(registry, Ledger(), id, stepIdx, a.value.response, a.value.answers)
    {
      ghost var mid := Now();
      a, v := AttemptOnce(id, owner, stepIdx, request, attempt, limits, d, u);
      UpdatedTwice(runs, id, u.row, v.row);
      WorksTwice(Tools(), WellFormed(), start, mid, Now());
      TriesOn(d, w, u, v);
    }

    /**
     * Try a step, and try again after a passing failure. Every request of the step is the
     * same one; each retry was granted by the run's budget.
     */
    method AttemptStep(
      id: RunId, owner: Owner, stepIdx: nat, request: Request, limits: RunLimits,
      ghost d: LoopTrace.Driver, ghost w: RunMachine.World)
      returns (a: Attempt, ghost v: RunMachine.World)
      requires Valid() && Tied(id, w) && Driving(d, owner) && d.c.limits == limits
      requires owner in w.workers && w.workers[owner].pc == RunMachine.Asking(1)
      modifies llm, store`runs, store`now, absence, ledger, tools, queue, clock, this`ran
      ensures MidStep(id, d, w, v, old(store.runs), old(llm.requests), old(Now()), request)
      ensures Leaves(a, v.workers[owner])
      ensures |llm.requests| == |old(llm.requests)| + 1 + v.workers[owner].requests - w.workers[owner].requests
      ensures |llm.requests| > |old(llm.requests)| && llm.requests[|llm.requests| - 1] == request
      ensures StepEnds(ViewOf(id), stepIdx, LastReply(), limits, v.row.retriesUsed,
                       |llm.requests| - |old(llm.requests)|, a)
      ensures a == Stopped(ToolInFlight) ==> old(clock.time) + WaitBudget(limits.stepTimeout) <= clock.time
      ensures a.Done? ==> AllTold(registry, Ledger(), id, stepIdx, a.response, a.answers)
    {
      var attempt := 1;
      v := w;
      LoopTrace.Stay(d, w);
      StandsStill(Tools(), Now());
      while true
        invariant MidStep(id, d, w, v, old(store.runs), old(llm.requests), old(Now()), request)
        invariant v.workers[owner].pc == RunMachine.Asking(attempt)
        invariant |llm.requests| == |old(llm.requests)| + attempt - 1
        invariant v.workers[owner].requests == w.workers[owner].requests + attempt - 1
        decreases limits.maxStepAttempts - attempt
      {
        var stop;
        stop, v := AttemptAgain(
          id, owner, stepIdx, request, attempt, limits, old(store.runs), old(llm.requests), old(Now()), d, w, v);
        if stop.Some? { return stop.value, v; }
        attempt := attempt + 1;
      }
    }

    // --- Durability ------------------------------------------------------------------

    /**
     * Make a step durable, then confirm that the run is still ours. A step that is there
     * already is an answer and not an error.
     */
    method Commit(
      id: RunId, owner: Owner, step: StepRecord, pending: seq<Message>,
      ghost d: LoopTrace.Driver, ghost w: RunMachine.World)
      returns (held: bool, ghost v: RunMachine.World)
      requires Valid() && Tied(id, w) && Driving(d, owner)
      requires owner in w.workers && w.workers[owner].pc.Committing?
      requires w.workers[owner].pc.step == step && w.workers[owner].pending == pending
      modifies store`runs, store`now, absence
      ensures Valid() && Tied(id, v) && store.runs == old(store.runs)[id := v.row]
      ensures LoopTrace.Follows(d, w, v) && owner in v.workers
      ensures GoesOn(w.workers[owner], v.workers[owner], held)
      ensures if held then HeldBy(v.row, owner) else !Renewable(v.row, v.now, owner)
      ensures w.row.status.Running? ==> v.row.status.Running?
    {
      ghost var t := Elapse(id, d, w);
      var tried := store.Commit(id, step, pending);
      ghost var u := LoopTrace.Commits(d, t);
      LoopTrace.Chain(d, w, t, u);
      ghost var u' := Elapse(id, d, u);
      LoopTrace.Chain(d, w, u, u');
      held := store.Renew(id, owner, leaseTtl);
      v := LoopTrace.Renews(d, u');
      UpdatedTwice(old(store.runs), id, u.row, v.row);
      LoopTrace.Chain(d, w, u', v);
    }

    /** Persist a terminal outcome. */
    method Finish(
      id: RunId, owner: Owner, outcome: RunOutcome, ghost d: LoopTrace.Driver, ghost w: RunMachine.World)
      returns (ghost v: RunMachine.World)
      requires Valid() && Tied(id, w) && Driving(d, owner)
      requires owner in w.workers && w.workers[owner].pc == RunMachine.Finishing(outcome)
      modifies store`runs
      ensures Valid() && Tied(id, v) && store.runs == old(store.runs)[id := v.row]
      ensures LoopTrace.Moved(d, w, v) && Stops(w.workers[owner], v.workers[owner])
      ensures Persisted(outcome, v.row) && v.row.retriesUsed == w.row.retriesUsed
    {
      var _ := store.FinishRun(id, outcome);
      v := LoopTrace.Finishes(d, w);
    }

    /** Stop without killing the run: the lease goes back, if it was still ours. */
    method Pause(
      id: RunId, owner: Owner, outcome: RunOutcome, ghost d: LoopTrace.Driver, ghost w: RunMachine.World)
      returns (ghost v: RunMachine.World)
      requires Valid() && Tied(id, w) && Driving(d, owner)
      requires owner in w.workers && w.workers[owner].pc == RunMachine.Pausing && outcome.status.Paused?
      modifies store`runs
      ensures Valid() && Tied(id, v) && store.runs == old(store.runs)[id := v.row]
      ensures LoopTrace.Moved(d, w, v) && Stops(w.workers[owner], v.workers[owner])
      ensures if HeldBy(w.row, owner) then Persisted(outcome, v.row) else v.row == w.row
    {
      store.Release(id, owner, Paused);
      v := LoopTrace.Releases(d, w);
    }

    // --- The loop --------------------------------------------------------------------

    /** The step came to nothing: the run fails, or pauses, or the caller's request was bad. */
    method EndStep(
      id: RunId, owner: Owner, a: Attempt, l: Locals, ghost limits: RunLimits, ghost view: View,
      ghost reply: Reply, ghost attempts: int,
      ghost d: LoopTrace.Driver, ghost w: RunMachine.World)
      returns (r: Result<RunOutcome, LoopError>, ghost v: RunMachine.World)
      requires Valid() && Tied(id, w) && Driving(d, owner) && HeldBy(w.row, owner)
      requires owner in w.workers && Holds(w.workers[owner], l) && Leaves(a, w.workers[owner]) && !a.Done?
      requires StepEnds(view, |l.steps|, reply, limits, w.row.retriesUsed, attempts, a)
      modifies store`runs
      ensures Valid() && Tied(id, v) && store.runs == old(store.runs)[id := v.row]
      ensures LoopTrace.Follows(d, w, v) && owner in v.workers && Stops(w.workers[owner], v.workers[owner])
      ensures r.Ok? ==> Persisted(r.value, v.row) && StopsAt(l, Some(reply), r.value) && !r.value.status.Completed?
      ensures Warranted(limits, view, Asked(attempts, Some(reply)), v.row, true, r)
      ensures r == Err(LLMRequestError) <==> a.Refused?
      ensures r.Ok? && r.value.error == Some(ToolPending) ==> a == Stopped(ToolInFlight)
      ensures a.Refused? ==> v.row == w.row
    {
      v := w;
      LoopTrace.Stay(d, w);
      if a.Refused? { return Err(LLMRequestError), v; }
      if a == Exhausted(false) || a == Stopped(ToolInFlight) {
        var outcome := RunOutcome(
          Paused, l.usage, l.messages, l.steps, None, Some(if a.Exhausted? then StepFailed else ToolPending));
        v := Pause(id, owner, outcome, d, w);
        return Ok(outcome), v;
      }
      var code := if a.Exhausted? then StepFailed else if a.signal.Review? then ErrorCode.NeedsReview else ToolFailed;
      var outcome := Failure(l, l.usage, code);
      v := Finish(id, owner, outcome, d, w);
      r := Ok(outcome);
    }

    /** The turn a response adds, made durable; the run goes on, or it is done. */
    method CommitTurn(
      id: RunId, owner: Owner, l: Locals, response: Response, results: seq<Block>, step: StepRecord,
      ghost limits: RunLimits, ghost view: View, ghost attempts: int,
      ghost d: LoopTrace.Driver, ghost w: RunMachine.World)
      returns (done: Option<Result<RunOutcome, LoopError>>, l': Locals, ghost v: RunMachine.World)
      requires Valid() && Tied(id, w) && Driving(d, owner) && owner in w.workers
      requires response.stop.ToolUse? || response.stop.EndTurn? || response.stop.StopSequence?
      requires Holds(w.workers[owner], Turned(l, response, results)) && StepOf(l, response, attempts, step)
      requires if response.stop.ToolUse? then TurnKept(response.content, results, step.toolCalls)
               else step.toolCalls == []
      requires w.workers[owner].steps == l.steps
      requires w.workers[owner].pc
               == RunMachine.Committing(step, if response.stop.ToolUse? then None else Some(AnswerFrom(response.content)))
      modifies store`runs, store`now, absence
      ensures Valid() && Tied(id, v) && store.runs == old(store.runs)[id := v.row]
      ensures LoopTrace.Follows(d, w, v) && owner in v.workers && SameStart(w.workers[owner], v.workers[owner])
      ensures v.workers[owner].requests == w.workers[owner].requests
      ensures if done.None? then AtHead(v, owner, l') && HeldBy(v.row, owner) && CameRound(l, l', response, attempts)
              else v.workers[owner].pc.Stopped?
                   && (done.value.Ok? ==> Persisted(done.value.value, v.row)
                                          && Reports(l, Some(Replied(response)), attempts, done.value.value))
      ensures done.Some? ==>
                && done.value != Err(LLMRequestError)
                && (done.value.Ok? ==> done.value.value.error != Some(ToolPending))
                && Warranted(limits, view, Asked(attempts, Some(Replied(response))), v.row,
                             Renewable(v.row, v.now, owner), done.value)
      ensures done.None? && w.row.status.Running? ==> v.row.status.Running?
    {
      var turned := Turned(l, response, results);
      var held;
      ghost var t;
      held, t := Commit(id, owner, step, turned.pending, d, w);
      v := t;
      if !held { return Some(Err(RunNotResumable)), l, v; }
      l' := turned.(pending := [], steps := l.steps + [step]);
      if response.stop.ToolUse? { return None, l', v; }
      AnswerJoins(response.content, AnswerFrom(response.content));
      var outcome := RunOutcome(
        Completed, l'.usage, l'.messages, l'.steps, Some(AnswerFrom(response.content)), None);
      v := Finish(id, owner, outcome, d, t);
      UpdatedTwice(old(store.runs), id, t.row, v.row);
      LoopTrace.Chain(d, w, t, v);
      done := Some(Ok(outcome));
    }

    /** A response: its stop reason first, then the turn it adds, then its commit. */
    method Conclude(
      id: RunId, owner: Owner, l: Locals, response: Response, answers: seq<Answer>, attempt: nat,
      ghost limits: RunLimits, ghost view: View, ghost attempts: int,
      ghost d: LoopTrace.Driver, ghost w: RunMachine.World)
      returns (done: Option<Result<RunOutcome, LoopError>>, l': Locals, ghost v: RunMachine.World)
      requires Valid() && Tied(id, w) && Driving(d, owner)
      requires owner in w.workers && Holds(w.workers[owner], l) && w.workers[owner].pc == RunMachine.Asking(attempt)
      requires InTurn(response, answers) && attempt == attempts
      requires d.says(LoopTrace.Saying(w.workers[owner], response, ResultsOf(answers), RecordsOf(answers)))
      modifies store`runs, store`now, absence
      ensures Valid() && Tied(id, v) && store.runs == old(store.runs)[id := v.row]
      ensures LoopTrace.Follows(d, w, v) && owner in v.workers && SameStart(w.workers[owner], v.workers[owner])
      ensures v.workers[owner].requests == w.workers[owner].requests
      ensures if done.None? then
                AtHead(v, owner, l') && HeldBy(v.row, owner) && CameRound(l, l', response, attempts)
              else v.workers[owner].pc.Stopped?
                   && (done.value.Ok? ==> Persisted(done.value.value, v.row)
                                          && Reports(l, Some(Replied(response)), attempts, done.value.value))
      ensures done.Some? ==>
                && done.value != Err(LLMRequestError)
                && (done.value.Ok? ==> done.value.value.error != Some(ToolPending))
                && Warranted(limits, view, Asked(attempts, Some(Replied(response))), v.row,
                             Renewable(v.row, v.now, owner), done.value)
      ensures done.None? && w.row.status.Running? ==> v.row.status.Running?
    {
      var results, records := ResultsOf(answers), RecordsOf(answers);
      if response.stop.ToolUse? {
        KeptIsAnswered(response.content, results, records);
        NothingToAnswer(response.content, results);
      }
      ghost var u := LoopTrace.Answers(d, w, response, results, records);
      if response.stop.Refusal? || response.stop.MaxTokens? || response.stop.PauseTurn?
         || (response.stop.ToolUse? && records == []) {
        var code := if response.stop.Refusal? then UpstreamRefusal else UpstreamTruncated;
        var outcome := Failure(l, l.usage.Plus(response.usage), code);
        v := Finish(id, owner, outcome, d, u);
        done, l' := Some(Ok(outcome)), l;
      } else {
        var step := StepRecord(
          |l.steps|, response.stop, response.usage, if response.stop.ToolUse? then records else [], attempt);
        done, l', v := CommitTurn(id, owner, l, response, results, step, limits, view, attempts, d, u);
      }
      LoopTrace.Chain(d, w, u, v);
    }

    /** What a tried step comes to, for the run. */
    method SettleStep(
      id: RunId, owner: Owner, limits: RunLimits, l: Locals, attempt: Attempt,
      ghost view: View, ghost reply: Reply, ghost attempts: int,
      ghost d: LoopTrace.Driver, ghost w: RunMachine.World)
      returns (done: Option<Result<RunOutcome, LoopError>>, l': Locals, ghost v: RunMachine.World)
      requires Valid() && Tied(id, w) && Driving(d, owner) && Owns(w.row, owner)
      requires owner in w.workers && Holds(w.workers[owner], l) && Leaves(attempt, w.workers[owner])
      requires StepEnds(view, |l.steps|, reply, limits, w.row.retriesUsed, attempts, attempt)
      requires attempt.Done? ==> InTurn(attempt.response, attempt.answers)
      requires attempt.Done? ==>
                 d.says(LoopTrace.Saying(
                          w.workers[owner], attempt.response, ResultsOf(attempt.answers), RecordsOf(attempt.answers)))
      modifies store`runs, store`now, absence
      ensures Valid() && Tied(id, v) && store.runs == old(store.runs)[id := v.row]
      ensures LoopTrace.Follows(d, w, v) && owner in v.workers && SameStart(w.workers[owner], v.workers[owner])
      ensures v.workers[owner].requests == w.workers[owner].requests
      ensures Outcomes(limits, view, attempts, reply, l, l', v, owner, done)
      ensures done.Some? && done.value.Ok? && done.value.value.error == Some(ToolPending) ==>
                attempt == Stopped(ToolInFlight)
    {
      if attempt.Done? {
        done, l', v := Conclude(id, owner, l, attempt.response, attempt.answers, attempt.attempt, limits, view, attempts,
                              d, w);
      } else {
        var r;
        r, v := EndStep(id, owner, attempt, l, limits, view, reply, attempts, d, w);
        done, l' := Some(r), l;
      }
    }

    /** A step tried: what it comes back with answers every call of the turn, and is what `d` says. */
    method HearStep(
      id: RunId, owner: Owner, limits: RunLimits, l: Locals, request: Request, ghost side: Side,
      ghost d: LoopTrace.Driver, ghost w: RunMachine.World)
      returns (a: Attempt, ghost v: RunMachine.World)
      requires Valid() && Tied(id, w) && Driving(d, owner) && d.c.limits == limits
      requires owner in w.workers && w.workers[owner].pc == RunMachine.Asking(1) && Holds(w.workers[owner], l)
      requires request == Request(l.messages, MaxTokensForNextStep(limits, l.usage))
      requires Works(Tools(), WellFormed(), side, Now()) && Honest(d, Tools(), llm.replies, id, side)
      modifies llm, store`runs, store`now, absence, ledger, tools, queue, clock, this`ran
      ensures Valid() && Tied(id, v) && store.runs == old(store.runs)[id := v.row] && Tries(d, w, v)
      ensures Leaves(a, v.workers[owner]) && Works(Tools(), WellFormed(), side, Now())
      ensures |llm.requests| == |old(llm.requests)| + 1 + v.workers[owner].requests - w.workers[owner].requests
      ensures OnlyAsked(old(llm.requests), llm.requests, request) && |llm.requests| > |old(llm.requests)|
      ensures StepEnds(ViewOf(id), |l.steps|, LastReply(), limits, v.row.retriesUsed,
                       |llm.requests| - |old(llm.requests)|, a)
      ensures a == Stopped(ToolInFlight) ==> old(clock.time) + WaitBudget(limits.stepTimeout) <= clock.time
      ensures a.Done? ==>
                && InTurn(a.response, a.answers)
                && d.says(LoopTrace.Saying(v.workers[owner], a.response, ResultsOf(a.answers), RecordsOf(a.answers)))
    {
      a, v := AttemptStep(id, owner, |l.steps|, request, limits, d, w);
      WorksTwice(Tools(), WellFormed(), side, old(Now()), Now());
      if a.Done? {
        ToldInTurn(registry, Ledger(), id, |l.steps|, a.response, a.answers);
        SaidHonestly(d, Tools(), llm.replies, id, side, Now(), |llm.requests| - 1, l, v.workers[owner],
                     a.response, a.answers);
      }
    }

    /** A step the limits allow: tried, then concluded or given up. */
    method PlayStep(
      id: RunId, owner: Owner, limits: RunLimits, l: Locals, request: Request, ghost side: Side,
      ghost d: LoopTrace.Driver, ghost w: RunMachine.World)
      returns (done: Option<Result<RunOutcome, LoopError>>, l': Locals, ghost v: RunMachine.World)
      requires Valid() && Tied(id, w) && Driving(d, owner) && d.c.limits == limits && Owns(w.row, owner)
      requires owner in w.workers && w.workers[owner].pc == RunMachine.Asking(1) && Holds(w.workers[owner], l)
      requires request == Request(l.messages, MaxTokensForNextStep(limits, l.usage))
      requires Works(Tools(), WellFormed(), side, Now()) && Honest(d, Tools(), llm.replies, id, side)
      modifies llm, store`runs, store`now, absence, ledger, tools, queue, clock, this`ran
      ensures Valid() && Tied(id, v) && store.runs == old(store.runs)[id := v.row]
      ensures LoopTrace.Follows(d, w, v) && owner in v.workers && SameStart(w.workers[owner], v.workers[owner])
      ensures |llm.requests| == |old(llm.requests)| + 1 + v.workers[owner].requests - w.workers[owner].requests
      ensures OnlyAsked(old(llm.requests), llm.requests, request) && |llm.requests| > |old(llm.requests)|
      ensures Works(Tools(), WellFormed(), side, Now())
      ensures Outcomes(limits, ViewOf(id), |llm.requests| - |old(llm.requests)|, LastReply(), l, l', v, owner, done)
      ensures done.Some? && done.value.Ok? && done.value.value.error == Some(ToolPending) ==>
                old(clock.time) + WaitBudget(limits.stepTimeout) <= clock.time
    {
      var attempt;
      ghost var u;
      attempt, u := HearStep(id, owner, limits, l, request, side, d, w);
      ghost var view, reply, attempts := ViewOf(id), LastReply(), |llm.requests| - |old(llm.requests)|;
      done, l', v := SettleStep(id, owner, limits, l, attempt, view, reply, attempts, d, u);
      assert view == ViewOf(id) && reply == LastReply();
      UpdatedTwice(old(store.runs), id, u.row, v.row);
      LoopTrace.Chain(d, w, u, v);
    }

    /** One time round the loop. */
    method TakeStep(
      id: RunId, owner: Owner, limits: RunLimits, l: Locals, ghost side: Side,
      ghost d: LoopTrace.Driver, ghost w: RunMachine.World)
      returns (done: Option<Result<RunOutcome, LoopError>>, l': Locals, ghost v: RunMachine.World)
      requires Valid() && Tied(id, w) && Driving(d, owner) && d.c.limits == limits
      requires AtHead(w, owner, l) && Owns(w.row, owner)
      requires Works(Tools(), WellFormed(), side, Now()) && Honest(d, Tools(), llm.replies, id, side)
      modifies llm, store`runs, store`now, absence, ledger, tools, queue, clock, this`ran
      ensures Valid() && Tied(id, v) && store.runs == old(store.runs)[id := v.row]
      ensures LoopTrace.Follows(d, w, v) && owner in v.workers && SameStart(w.workers[owner], v.workers[owner])
      ensures |llm.requests| == |old(llm.requests)| + v.workers[owner].requests - w.workers[owner].requests
      ensures OnlyAsked(old(llm.requests), llm.requests, Request(l.messages, MaxTokensForNextStep(limits, l.usage)))
      ensures |llm.requests| > |old(llm.requests)| <==>
                l.usage.steps < limits.maxSteps && limits.tokenBudget - (l.usage.input + l.usage.output) >= 1024
      ensures Works(Tools(), WellFormed(), side, Now())
      ensures TookStep(limits, l, Asked(|llm.requests| - |old(llm.requests)|, Reply()), ViewOf(id), v, owner, l', done)
      ensures done.None? ==>
                |llm.requests| > 0 && LastReply().Replied?
                && CameRound(l, l', LastReply().response, |llm.requests| - |old(llm.requests)|)
      ensures done.Some? && done.value.Ok? ==>
                Reports(l, Reply(), |llm.requests| - |old(llm.requests)|, done.value.value)
      ensures done.Some? && done.value.Ok? && done.value.value.error == Some(ToolPending) ==>
                old(clock.time) + WaitBudget(limits.stepTimeout) <= clock.time
    {
      ghost var c := LoopTrace.Checks(d, w);
      if MayStep(limits, l.usage) {
        var request := Request(l.messages, MaxTokensForNextStep(limits, l.usage));
        done, l', v := PlayStep(id, owner, limits, l, request, side, d, c);
      } else {
        var outcome := Failure(l, l.usage, BudgetExceeded);
        v := Finish(id, owner, outcome, d, c);
        done, l' := Some(Ok(outcome)), l;
      }
      LoopTrace.Chain(d, w, c, v);
    }

    /** Claim the run and load it: two transactions, with time between them. */
    method Open(id: RunId, owner: Owner, ghost d: LoopTrace.Driver, ghost w: RunMachine.World)
      returns (r: Result<Opened, LoopError>, ghost v: RunMachine.World)
      requires Valid() && Driving(d, owner) && LoopTrace.Reached(d.c, w) && owner !in w.workers
      requires id in store.runs ==> Tied(id, w)
      modifies store`runs, store`now, absence
      ensures Valid()
      ensures !(id in old(store.runs) && Claimable(old(store.runs[id]), old(store.now))) ==>
                r == Err(RunNotResumable) && v == w && store.runs == old(store.runs)
      ensures id in old(store.runs) && Claimable(old(store.runs[id]), old(store.now)) ==>
                && Tied(id, v) && store.runs == old(store.runs)[id := v.row]
                && LoopTrace.Follows(d, w, v) && owner in v.workers
                && (r.Ok? <==> Load(w.row).Ok?)
                && (if r.Ok? then r.value.limits == d.c.limits && Underway(d, w, v, r.value.l, 0)
                                  && r.value.l.usage == Load(w.row).value.usage
                    else v.workers[owner].pc.Stopped? && r.error == RunUnreadable && Load(v.row).Err?)
      ensures r.Ok? ==> id in old(store.runs) && Claimable(old(store.runs[id]), old(store.now))
    {
      v := w;
      var taken := store.Claim(id, owner, leaseTtl);
      if !taken { return Err(RunNotResumable), v; }
      ghost var t := LoopTrace.Claims(d, w);
      ghost var u := Elapse(id, d, t);
      LoopTrace.Chain(d, w, t, u);
      var loaded := store.LoadRun(id);
      v := LoopTrace.Loads(d, u);
      LoopTrace.Chain(d, w, u, v);
      if loaded.Err? { return Err(RunUnreadable), v; }
      LoopTrace.StaysReached(d, w, u);
      LoopTrace.LoadCounts(d.c, u);
      LoopTrace.LoadOpens(d.c, u);
      var record := loaded.value;
      var messages := Conversation(record);
      var pending := if record.messages == [] then messages else [];
      r := Ok(Opened(record.limits, Locals(messages, pending, record.usage, record.steps)));
    }

    /**
     * One more time round a call of `run` that began at `w` with `before` asked already: it
     * is still underway, or it has ended and all that it promises holds.
     */
    method ComeRound(
      id: RunId, owner: Owner, limits: RunLimits, l: Locals, ghost start: Locals, ghost before: seq<Request>,
      ghost side: Side, ghost d: LoopTrace.Driver, ghost w: RunMachine.World, ghost u: RunMachine.World)
      returns (done: Option<Result<RunOutcome, LoopError>>, l': Locals, ghost v: RunMachine.World)
      requires Valid() && Tied(id, u) && Driving(d, owner) && d.c.limits == limits
      requires WellAsked(d, w, before, llm.requests)
      requires Works(Tools(), WellFormed(), side, Now()) && Honest(d, Tools(), llm.replies, id, side)
      requires Underway(d, w, u, l, |llm.requests| - |before|)
      requires CameFrom(limits, start, l, Asked(|llm.requests| - |before|, Reply()))
      modifies llm, store`runs, store`now, absence, ledger, tools, queue, clock, this`ran
      ensures Valid() && Tied(id, v) && store.runs == old(store.runs)[id := v.row]
      ensures WellAsked(d, w, before, llm.requests) && Works(Tools(), WellFormed(), side, Now())
      ensures RoundsOff(limits, d, w, start, l, Asked(|llm.requests| - |before|, Reply()), ViewOf(id), v, l', done)
      ensures done.Some? && done.value.Ok? && done.value.value.error == Some(ToolPending) ==>
                side.time + WaitBudget(limits.stepTimeout) <= clock.time
    {
      ghost var asked, was := llm.requests, Asked(|llm.requests| - |before|, Reply());
      done, l', v := TakeStep(id, owner, limits, l, side, d, u);
      ghost var step := Asked(|llm.requests| - |asked|, Reply());
      assert step.requests == 0 ==> step.last == was.last;
      RoundOver(limits, d, w, u, v, start, l, l', before, asked, llm.requests, was, step, ViewOf(id), done);
      assert Asked(was.requests + step.requests, step.last) == Asked(|llm.requests| - |before|, Reply());
    }

    /** Round and round, from where the run was loaded to its end. */
    method Drive(
      id: RunId, owner: Owner, limits: RunLimits, start: Locals,
      ghost d: LoopTrace.Driver, ghost w: RunMachine.World, ghost u: RunMachine.World)
      returns (r: Result<RunOutcome, LoopError>, ghost v: RunMachine.World)
      requires Valid() && Tied(id, u) && Driving(d, owner) && d.c.limits == limits && Underway(d, w, u, start, 0)
      requires Honest(d, Tools(), llm.replies, id, Now())
      modifies llm, store`runs, store`now, absence, ledger, tools, queue, clock, this`ran
      ensures Valid() && Tied(id, v) && store.runs == old(store.runs)[id := v.row]
      ensures LoopTrace.Follows(d, w, v) && owner in v.workers && v.workers[owner].pc.Stopped?
      ensures |llm.requests| - |old(llm.requests)| <= Allowed(d, w)
      ensures Ends(limits, start.usage, ViewOf(id), Asked(|llm.requests| - |old(llm.requests)|, Reply()), v.row, v.now,
                   owner, r)
      ensures WellAsked(d, w, old(llm.requests), llm.requests) && Works(Tools(), WellFormed(), old(Now()), Now())
      ensures r.Ok? && r.value.error == Some(ToolPending) ==>
                old(clock.time) + WaitBudget(limits.stepTimeout) <= clock.time
    {
      ghost var before, side := llm.requests, Now();
      var l := start;
      v := u;
      StandsStill(Tools(), side);
      while true
        invariant Valid() && Tied(id, v) && store.runs == old(store.runs)[id := v.row]
        invariant Underway(d, w, v, l, |llm.requests| - |before|)
        invariant CameFrom(limits, start, l, Asked(|llm.requests| - |before|, Reply()))
        invariant WellAsked(d, w, before, llm.requests) && Works(Tools(), WellFormed(), side, Now())
        decreases limits.maxSteps - |l.steps|
      {
        var done;
        ghost var was := v;
        done, l, v := ComeRound(id, owner, limits, l, start, before, side, d, w, was);
        UpdatedTwice(old(store.runs), id, was.row, v.row);
        if done.Some? { return done.value, v; }
      }
    }

    /**
     * Claim a run and drive it until it is terminal, or paused, or no longer this worker's.
     *
     * Everything it does to the run is a sequence of the machine's events by this worker, so
     * what holds of every reachable state holds here. It ends; it asks the model at most once
     * for each step and each retry that were left at the claim; what it reports is what the
     * row says; its requests open with the run's question; and if it began alone on a run of
     * tool turns, each of them is well formed.
     */
    method Run(id: RunId, owner: Owner, ghost d: LoopTrace.Driver, ghost w: RunMachine.World)
      returns (r: Result<RunOutcome, LoopError>, ghost v: RunMachine.World)
      requires Valid() && Driving(d, owner) && LoopTrace.Reached(d.c, w) && owner !in w.workers
      requires id in store.runs ==> Tied(id, w)
      requires Honest(d, Tools(), llm.replies, id, Now())
      modifies llm, store`runs, store`now, absence, ledger, tools, queue, clock, this`ran
      ensures Valid() && Works(Tools(), WellFormed(), old(Now()), Now())
      ensures !(id in old(store.runs) && Claimable(old(store.runs[id]), old(store.now))) ==>
                && r == Err(RunNotResumable) && v == w
                && store.runs == old(store.runs) && llm.requests == old(llm.requests) && Ledger() == old(Ledger())
      ensures id in old(store.runs) && Claimable(old(store.runs[id]), old(store.now)) ==>
                && Tied(id, v) && store.runs == old(store.runs)[id := v.row]
                && LoopTrace.Follows(d, w, v) && owner in v.workers && v.workers[owner].pc.Stopped?
                && (if Load(w.row).Ok? then
                      Ends(d.c.limits, Load(w.row).value.usage, ViewOf(id),
                           Asked(|llm.requests| - |old(llm.requests)|, Reply()), v.row, v.now, owner, r)
                    else r == Err(RunUnreadable) && llm.requests == old(llm.requests))
      ensures |llm.requests| - |old(llm.requests)| <= Allowed(d, w)
      ensures WellAsked(d, w, old(llm.requests), llm.requests) && Asks(w.row, old(llm.requests), llm.requests)
      ensures r.Ok? && r.value.error == Some(ToolPending) ==>
                old(clock.time) + WaitBudget(d.c.limits.stepTimeout) <= clock.time
    {
      var start;
      start, v := Open(id, owner, d, w);
      assert llm.requests == old(llm.requests);
      if start.Err? {
        StandsStill(Tools(), Now());
        return Err(start.error), v;
      }
      ghost var u := v;
      r, v := Drive(id, owner, start.value.limits, start.value.l, d, w, u);
      UpdatedTwice(old(store.runs), id, u.row, v.row);
    }
  }
}
