/**
 * One run driven by any number of workers.
 *
 * A worker is `AgentLoop.run` cut at its store calls: each transaction is one step, a model
 * request with the tools it asks for ends in an arbitrary answer or failure, and a worker may
 * die anywhere. Owner names are unique per claim. Neither `commit_step` nor `finish` looks
 * at the lease, so a worker that lost it can still write.
 */
module RunMachine {
  import opened Wrappers
  import opened Json
  import opened Messages
  import opened RunState
  import opened RunStore
  import opened Retry

  /** A run as it was asked for, and what its workers run under. */
  datatype Config = Config(query: Text, requested: RunLimits, ttl: int, backoff: BackoffPolicy) {
    /** The limits every claim loads: not always the ones requested (`LimitsSurviveIffDefault`). */
    const limits: RunLimits := requested.AsStored().AsLoaded()
  }

  /** What a worker has asked of the store, in order. */
  datatype Action =
    | TriedCommit(idx: nat, accepted: bool)
    | TriedRenew(held: bool)
    | Finished(status: RunStatus)

  datatype Pc =
    | Loading
    | Head
    | Asking(attempt: nat)
    | Charging(attempt: nat)
    | Committing(step: StepRecord, answer: Option<Text>)
    | Renewing(step: StepRecord, answer: Option<Text>)
    | Finishing(outcome: RunOutcome)
    | Pausing
    | Stopped

  /** The locals of one `run` call, and a record of what it did. */
  datatype Worker = Worker(
    pc: Pc,
    messages: seq<Message>,
    pending: seq<Message>,
    usage: RunUsage,
    steps: seq<StepRecord>,
    stepsAtLoad: nat,
    retriesAtLoad: nat,
    requests: nat,       // model requests made
    granted: nat,        // retries granted
    lateCommits: nat,    // commits tried after another worker's claim
    log: seq<Action>)

  datatype World = World(
    row: RunRow,
    now: int,
    workers: map<Owner, Worker>,
    claims: seq<Owner>,               // who claimed, in order
    batches: seq<seq<Message>>,       // what each accepted commit brought
    granted: nat,                     // retries granted over the run's life
    backoff: real)                    // seconds of backoff asked for

  /** Why an attempt stopped without a retry. */
  datatype Abort = ToolInFlight | Review | ToolBug

  datatype Event =
    | Claim(o: Owner)
    | LoadRow(o: Owner)
    | Check(o: Owner)
    | Answer(o: Owner, response: Response, results: seq<Block>, records: seq<ToolCallRecord>)
    | Fail(o: Owner)
    | GiveUp(o: Owner, why: Abort)
    | Charge(o: Owner, random: real)
    | Commit(o: Owner)
    | Renew(o: Owner)
    | Finish(o: Owner)
    | Release(o: Owner)
    | Crash(o: Owner)
    | Tick(later: int)

  function Opening(c: Config): Message {
    Message(User, [TextBlock(c.query)])
  }

  function Start(c: Config): World {
    World(NewRow(c.query, c.requested), 0, map[], [], [], 0, 0.0)
  }

  const NEWCOMER := Worker(Loading, [], [], RunUsage(0, 0, 0, 0), [], 0, 0, 0, 0, 0, [])

  /** One result for each of these calls, in order, each naming the call it answers. */
  predicate Names(content: seq<Block>, at: seq<nat>, results: seq<Block>) {
    && |results| == |at|
    && forall j :: 0 <= j < |at| ==>
         at[j] < |content| && content[at[j]].ToolUseBlock?
         && results[j].ToolResultBlock? && results[j].toolUseId == content[at[j]].id
  }

  /** One result for every tool call of the turn, wherever it stands in it, in the same order. */
  ghost predicate Answers(content: seq<Block>, results: seq<Block>) {
    exists at: seq<nat> :: CallsAt(content, at) && Names(content, at, results)
  }

  /** The same, of the calls as the loop reads them out of the turn. */
  lemma AnswersEach(content: seq<Block>, results: seq<Block>)
    ensures Answers(content, results) <==>
            var uses := ToolUses(content);
            && |results| == |uses|
            && forall j :: 0 <= j < |uses| ==> results[j].ToolResultBlock? && results[j].toolUseId == uses[j].id
  {
    var at := CallsFound(content);
    if Answers(content, results) {
      var bt :| CallsAt(content, bt) && Names(content, bt, results);
      CallsAtOnce(content, at, bt);
    } else {
      assert !Names(content, at, results);
    }
  }

  predicate At(w: World, o: Owner, pc: Pc) { o in w.workers && w.workers[o].pc == pc }

  ghost predicate Enabled(c: Config, w: World, e: Event) {
    match e
    case Claim(o) => o !in w.workers && Claimable(w.row, w.now)
    case LoadRow(o) => At(w, o, Loading)
    case Check(o) => At(w, o, Head)
    case Answer(o, response, results, records) =>
      && o in w.workers && w.workers[o].pc.Asking?
      && (if response.stop.ToolUse? then Answers(response.content, results) else results == [])
      && |records| == |results|
    case Fail(o) => o in w.workers && w.workers[o].pc.Asking?
    case GiveUp(o, _) => o in w.workers && w.workers[o].pc.Asking?
    case Charge(o, random) => o in w.workers && w.workers[o].pc.Charging? && 0.0 <= random < 1.0 && c.backoff.Valid()
    case Commit(o) => o in w.workers && w.workers[o].pc.Committing?
    case Renew(o) => o in w.workers && w.workers[o].pc.Renewing?
    case Finish(o) => o in w.workers && w.workers[o].pc.Finishing?
    case Release(o) => At(w, o, Pausing)
    case Crash(o) => o in w.workers
    case Tick(later) => w.now <= later
  }

  // --- A worker's own moves ----------------------------------------------------------

  function FailedWith(k: Worker, usage: RunUsage, code: ErrorCode): Pc {
    Finishing(RunOutcome(RunStatus.Failed, usage, k.messages, k.steps, None, Some(code)))
  }

  /** `_conversation`, and the locals it starts the loop with. */
  function Loaded(c: Config, row: RunRow, k: Worker): Worker {
    match Load(row)
    case Err(_) => k.(pc := Stopped)
    case Ok(r) =>
      var messages := if r.messages == [] then [Opening(c)] else r.messages;
      k.(pc := Head, messages := messages, pending := if r.messages == [] then messages else [],
         usage := r.usage, steps := r.steps, stepsAtLoad := |r.steps|, retriesAtLoad := r.retriesUsed)
  }

  function Checked(c: Config, k: Worker): Worker {
    if MayStep(c.limits, k.usage) then k.(pc := Asking(1), requests := k.requests + 1)
    else k.(pc := FailedWith(k, k.usage, BudgetExceeded))
  }

  /** Everything between a response and its commit, the stop reason first. */
  function Answered(k: Worker, r: Response, results: seq<Block>, records: seq<ToolCallRecord>): Worker
    requires k.pc.Asking?
  {
    var usage := k.usage.Plus(r.usage);
    if r.stop.Refusal? then k.(usage := usage, pc := FailedWith(k, usage, UpstreamRefusal))
    else if r.stop.MaxTokens? || r.stop.PauseTurn? then
      k.(usage := usage, pc := FailedWith(k, usage, UpstreamTruncated))
    else if r.stop.ToolUse? && records == [] then
      k.(usage := usage, pc := FailedWith(k, usage, UpstreamTruncated))
    else
      var turn := [Message(Assistant, r.content)] + if r.stop.ToolUse? then [Message(User, results)] else [];
      var step := StepRecord(|k.steps|, r.stop, r.usage, if r.stop.ToolUse? then records else [], k.pc.attempt);
      k.(usage := usage, messages := k.messages + turn, pending := k.pending + turn,
         pc := Committing(step, if r.stop.ToolUse? then None else Some(AnswerFrom(r.content))))
  }

  function AfterRenewal(k: Worker): Worker
    requires k.pc.Renewing?
  {
    var steps := k.steps + [k.pc.step];
    if k.pc.answer.None? then k.(steps := steps, pending := [], pc := Head)
    else
      k.(steps := steps,
         pc := Finishing(RunOutcome(RunStatus.Completed, k.usage, k.messages, steps, k.pc.answer, None)))
  }

  function Logged(k: Worker, a: Action): Worker { k.(log := k.log + [a]) }

  // --- Steps -------------------------------------------------------------------------

  function Put(w: World, o: Owner, k: Worker): World { w.(workers := w.workers[o := k]) }

  predicate TakenOver(w: World, o: Owner) { |w.claims| > 0 && w.claims[|w.claims| - 1] != o }

  function CommitEffect(w: World, o: Owner): World
    requires o in w.workers && w.workers[o].pc.Committing?
  {
    var k := w.workers[o];
    var tried := CommitStep(w.row, k.pc.step, k.pending);
    var k' := Logged(k.(pc := Renewing(k.pc.step, k.pc.answer),
                        lateCommits := k.lateCommits + if TakenOver(w, o) then 1 else 0),
                     TriedCommit(k.pc.step.idx, tried.Ok?));
    if tried.Ok? then Put(w.(row := tried.value, batches := w.batches + [k.pending]), o, k')
    else Put(w, o, k')
  }

  function ChargeEffect(c: Config, w: World, o: Owner, random: real): World
    requires o in w.workers && w.workers[o].pc.Charging? && c.backoff.Valid() && 0.0 <= random < 1.0
  {
    var k := w.workers[o];
    var row := RecordRetry(w.row);
    if row.retriesUsed > c.limits.maxRunRetries then
      Put(w.(row := row), o, k.(pc := FailedWith(k, k.usage, StepFailed)))
    else
      Put(w.(row := row, granted := w.granted + 1,
             backoff := w.backoff + c.backoff.DelayFor(k.pc.attempt, random)),
          o, k.(pc := Asking(k.pc.attempt), granted := k.granted + 1, requests := k.requests + 1))
  }

  function RenewEffect(c: Config, w: World, o: Owner): World
    requires o in w.workers && w.workers[o].pc.Renewing?
  {
    var k := w.workers[o];
    if Renewable(w.row, w.now, o) then
      Put(w.(row := Renewed(w.row, w.now, o, c.ttl)), o, Logged(AfterRenewal(k), TriedRenew(true)))
    else Put(w, o, Logged(k.(pc := Stopped), TriedRenew(false)))
  }

  function Apply(c: Config, w: World, e: Event): World
    requires Enabled(c, w, e)
  {
    match e
    case Claim(o) =>
      Put(w.(row := Claimed(w.row, w.now, o, c.ttl), claims := w.claims + [o]), o, NEWCOMER)
    case LoadRow(o) => Put(w, o, Loaded(c, w.row, w.workers[o]))
    case Check(o) => Put(w, o, Checked(c, w.workers[o]))
    case Answer(o, response, results, records) => Put(w, o, Answered(w.workers[o], response, results, records))
    case Fail(o) =>
      var next := w.workers[o].pc.attempt + 1;
      Put(w, o, w.workers[o].(pc := if next > c.limits.maxStepAttempts then Pausing else Charging(next)))
    case GiveUp(o, why) =>
      var k := w.workers[o];
      Put(w, o, k.(pc := match why
                         case ToolInFlight => Pausing
                         case Review => FailedWith(k, k.usage, NeedsReview)
                         case ToolBug => FailedWith(k, k.usage, ToolFailed)))
    case Charge(o, random) => ChargeEffect(c, w, o, random)
    case Commit(o) => CommitEffect(w, o)
    case Renew(o) => RenewEffect(c, w, o)
    case Finish(o) =>
      var k := w.workers[o];
      Put(w.(row := RunStore.Finish(w.row, k.pc.outcome)), o,
          Logged(k.(pc := Stopped), Finished(k.pc.outcome.status)))
    case Release(o) => Put(w.(row := Released(w.row, o, Paused)), o, w.workers[o].(pc := Stopped))
    case Crash(o) => Put(w, o, w.workers[o].(pc := Stopped))
    case Tick(later) => w.(now := later)
  }

  /** An event moves one worker, or none. */
  lemma OneMoves(c: Config, w: World, e: Event)
    requires Enabled(c, w, e)
    ensures if e.Tick? then Apply(c, w, e).workers == w.workers
            else e.o in Apply(c, w, e).workers
                 && Apply(c, w, e).workers == w.workers[e.o := Apply(c, w, e).workers[e.o]]
  {
  }

  lemma CheckFrame(c: Config, w: World, o: Owner)
    requires At(w, o, Head)
    ensures Enabled(c, w, Check(o)) && Apply(c, w, Check(o)) == Put(w, o, Checked(c, w.workers[o]))
  {
  }

  lemma CommitFrame(w: World, o: Owner)
    requires o in w.workers && w.workers[o].pc.Committing?
    ensures var k, v := w.workers[o], CommitEffect(w, o);
            var tried := CommitStep(w.row, k.pc.step, k.pending);
            && v.row == (if tried.Ok? then tried.value else w.row)
            && v.batches == w.batches + (if tried.Ok? then [k.pending] else [])
            && o in v.workers && v.workers == w.workers[o := v.workers[o]]
            && v.workers[o] == Logged(
                                 k.(pc := Renewing(k.pc.step, k.pc.answer),
                                    lateCommits := v.workers[o].lateCommits),
                                 TriedCommit(k.pc.step.idx, tried.Ok?))
  {
  }

  lemma RenewFrame(c: Config, w: World, o: Owner)
    requires o in w.workers && w.workers[o].pc.Renewing?
    ensures var k, v := w.workers[o], RenewEffect(c, w, o);
            && v.row == w.row.(lease := v.row.lease) && v.batches == w.batches
            && o in v.workers && v.workers == w.workers[o := v.workers[o]]
            && (v.workers[o].pc.Stopped?
                || v.workers[o] == Logged(AfterRenewal(k), TriedRenew(true)))
  {
  }

  lemma FinishFrame(c: Config, w: World, o: Owner)
    requires Enabled(c, w, Finish(o))
    ensures var v := Apply(c, w, Finish(o));
            && v.row == RunStore.Finish(w.row, w.workers[o].pc.outcome) && v.batches == w.batches
            && o in v.workers && v.workers == w.workers[o := v.workers[o]] && v.workers[o].pc.Stopped?
  {
  }

  /** A claim, a release or a crash: the rows keep their steps, and no run is ended. */
  lemma QuietFrame(c: Config, w: World, e: Event)
    requires Enabled(c, w, e) && (e.Claim? || e.Release? || e.Crash?)
    ensures var v := Apply(c, w, e);
            && v.row.steps == w.row.steps && v.batches == w.batches
            && (v.row.status.IsTerminal() ==> v.row == w.row.(lease := v.row.lease))
            && e.o in v.workers && v.workers == w.workers[e.o := v.workers[e.o]]
            && (v.workers[e.o].pc.Loading? || v.workers[e.o].pc.Stopped?)
  {
  }

  ghost predicate CanRun(c: Config, w: World, es: seq<Event>)
    decreases |es|
  {
    |es| == 0 || (Enabled(c, w, es[0]) && CanRun(c, Apply(c, w, es[0]), es[1..]))
  }

  function Run(c: Config, w: World, es: seq<Event>): World
    requires CanRun(c, w, es)
    decreases |es|
  {
    if |es| == 0 then w else Run(c, Apply(c, w, es[0]), es[1..])
  }
}
