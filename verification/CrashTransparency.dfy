/**
 * Crashes are invisible: a run that was crashed and resumed in any way ends as if it had
 * never been interrupted, unless it was cut off between its final commit and its `finish`.
 */
module CrashTransparency {
  import opened Wrappers
  import opened Json
  import opened Messages
  import opened RunState
  import opened RunStore
  import RunMachine
  import opened Idempotency
  import opened RunSafety
  import opened SoloRun
  import opened DurableRun

  // --- The uninterrupted run ---------------------------------------------------------

  /** What has been committed so far. */
  datatype History = History(steps: seq<StepRecord>, saved: seq<Message>)

  datatype Ending = Ending(
    history: History, status: RunStatus, answer: Option<Text>, error: Option<ErrorCode>)

  const NOTHING := History([], [])

  function Request(a: Agent, h: History): seq<Message> {
    h.saved + Unsaved(a.config, |h.steps|)
  }

  function Reply(a: Agent, h: History): Response {
    a.model(Request(a, h), MaxTokensForNextStep(a.config.limits, Spent(h.steps)))
  }

  /** What a call comes to, whoever runs it and however often. */
  function ToolOutcome(a: Agent, id: CallId): Outcome {
    match a.tool(id)
    case Unusable(detail) => Idempotency.Completed(detail, true)
    case Usable(_, _, does) => RecordOf(does)
  }

  function Results(a: Agent, stepIdx: nat, uses: seq<Block>): (results: seq<Block>)
    requires forall u | u in uses :: u.ToolUseBlock?
    ensures |results| == |uses|
  {
    seq(|uses|, i requires 0 <= i < |uses| =>
      var o := ToolOutcome(a, IdOf(stepIdx, uses[i])); ResultOf(uses[i], Recorded(o), o.isError))
  }

  function Records(a: Agent, stepIdx: nat, uses: seq<Block>): (records: seq<ToolCallRecord>)
    requires forall u | u in uses :: u.ToolUseBlock?
    ensures |records| == |uses|
  {
    seq(|uses|, i requires 0 <= i < |uses| =>
      var o := ToolOutcome(a, IdOf(stepIdx, uses[i])); RecordFor(uses[i], Recorded(o), o.isError))
  }

  /** One more committed step: a tool turn with its results, or the final turn. */
  function Extended(a: Agent, h: History, r: Response): History {
    var uses := if r.stop.ToolUse? then ToolUses(r.content) else [];
    var n := |h.steps|;
    var turn := [Message(Assistant, r.content)]
                + if r.stop.ToolUse? then [Message(User, Results(a, n, uses))] else [];
    History(h.steps + [StepRecord(n, r.stop, r.usage, Records(a, n, uses), 1)], Request(a, h) + turn)
  }

  /** The run as one process would drive it, with nothing stored and nothing lost. */
  function Uninterrupted(a: Agent, h: History): (end: Ending)
    ensures end.status.IsTerminal()
    decreases a.config.limits.maxSteps - |h.steps|
  {
    SpentSteps(h.steps);
    if !MayStep(a.config.limits, Spent(h.steps)) then Failing(h, BudgetExceeded)
    else
      var r := Reply(a, h);
      match r.stop
      case Refusal => Failing(h, UpstreamRefusal)
      case MaxTokens => Failing(h, UpstreamTruncated)
      case PauseTurn => Failing(h, UpstreamTruncated)
      case ToolUse =>
        if ToolUses(r.content) == [] then Failing(h, UpstreamTruncated)
        else Uninterrupted(a, Extended(a, h, r))
      case _ => Ending(Extended(a, h, r), RunStatus.Completed, Some(AnswerFrom(r.content)), None)
  }

  function Failing(h: History, code: ErrorCode): Ending {
    Ending(h, RunStatus.Failed, None, Some(code))
  }

  function Whole(a: Agent): Ending { Uninterrupted(a, NOTHING) }

  /** What the design asks of the model's blocks and of the tools. */
  ghost predicate Transparent(a: Agent) {
    && (forall ms, n :: forall b | b in a.model(ms, n).content :: Stable(b))
    && (forall id :: a.tool(id).Usable? ==> !a.tool(id).effect.Unsafe? && !a.tool(id).does.Raised?)
  }

  // --- Inside an attempt -------------------------------------------------------------

  ghost predicate LedgerOk(a: Agent, rows: map<CallId, Outcome>, queued: set<CallId>) {
    && (forall id | id in rows ::
          a.tool(id).Usable? && (rows[id] == PENDING_ROW || rows[id] == RecordOf(a.tool(id).does)))
    && (forall id | id in queued :: a.tool(id).Usable?)
  }

  /** The calls answered so far have the answers they always have. */
  predicate TalkOk(a: Agent, k: RunMachine.Worker, t: Talk) {
    var uses := t.Uses();
    && t.response == a.model(k.messages, MaxTokensForNextStep(a.config.limits, k.usage))
    && |t.results| == |t.records| <= |uses|
    && t.results == Results(a, |k.steps|, uses)[..|t.results|]
    && t.records == Records(a, |k.steps|, uses)[..|t.results|]
    && (!t.stage.Idle? ==> |t.results| < |uses| && a.tool(IdOf(|k.steps|, uses[|t.results|])).Usable?)
  }

  ghost predicate InsideOk(a: Agent, w: World) {
    && LedgerOk(a, w.rows, w.queued)
    && forall o | o in w.talks ::
         o in w.run.workers
         && (w.run.workers[o].pc.Asking? ==> TalkOk(a, w.run.workers[o], w.talks[o]))
         && (w.run.workers[o].pc.Asking? || w.run.workers[o].pc.Stopped?)
  }

  lemma OneMoreAnswer(a: Agent, stepIdx: nat, uses: seq<Block>, n: nat)
    requires n < |uses| && forall u | u in uses :: u.ToolUseBlock?
    ensures var o := ToolOutcome(a, IdOf(stepIdx, uses[n]));
            && Results(a, stepIdx, uses)[..n] + [ResultOf(uses[n], Recorded(o), o.isError)]
               == Results(a, stepIdx, uses)[..n + 1]
            && Records(a, stepIdx, uses)[..n] + [RecordFor(uses[n], Recorded(o), o.isError)]
               == Records(a, stepIdx, uses)[..n + 1]
  {
  }

  lemma CollectKeeps(a: Agent, k: RunMachine.Worker, t: Talk, o: Outcome)
    requires TalkOk(a, k, t) && |t.results| < |t.Uses()|
    requires o == ToolOutcome(a, IdOf(|k.steps|, t.Uses()[|t.results|]))
    ensures TalkOk(a, k, t.Collect(Recorded(o), o.isError))
  {
    var n, t' := |t.results|, t.Collect(Recorded(o), o.isError);
    assert t'.Uses() == t.Uses();
    OneMoreAnswer(a, |k.steps|, t.Uses(), n);
  }

  lemma TalkMoves(a: Agent, w: World, v: World, o: Owner)
    requires InsideOk(a, w) && LedgerOk(a, v.rows, v.queued) && IsAsking(w, o)
    requires v.run == w.run && o in v.talks && v.talks == w.talks[o := v.talks[o]]
    requires TalkOk(a, w.run.workers[o], v.talks[o])
    ensures InsideOk(a, v)
  {
  }

  /** An answer the tool always gives, or a stage the tool allows. */
  predicate Expected(a: Agent, id: CallId, r: Reaction) {
    match r
    case Stay(_) => a.tool(id).Usable?
    case Told(outcome) => outcome == ToolOutcome(a, id) && !outcome.status.NeedsReview?
    case Abort(_) => false
  }

  lemma ReactKeeps(a: Agent, w: World, v: World, o: Owner, r: Reaction)
    requires InsideOk(a, w) && LedgerOk(a, v.rows, v.queued) && v == w.(rows := v.rows, queued := v.queued)
    requires IsAsking(w, o) && o in w.talks && |w.talks[o].results| < |w.talks[o].Uses()|
    requires Expected(a, Current(w, o), r)
    ensures InsideOk(a, React(a, v, o, r))
    ensures React(a, v, o, r).run == w.run && React(a, v, o, r).cutShort == w.cutShort
  {
    if r.Told? { CollectKeeps(a, w.run.workers[o], w.talks[o], r.outcome); }
    TalkMoves(a, w, React(a, v, o, r), o);
  }

  /** No claim is refused, and every replay repeats what the tool does. */
  lemma ClaimIsExpected(a: Agent, rows: map<CallId, Outcome>, queued: set<CallId>, id: CallId)
    requires Transparent(a) && LedgerOk(a, rows, queued) && a.tool(id).Usable?
    ensures var (rows', r) := ClaimOf(rows, id, a.tool(id).effect);
            LedgerOk(a, rows', queued) && Expected(a, id, r)
  {
  }

  lemma LookIsExpected(a: Agent, rows: map<CallId, Outcome>, queued: set<CallId>, id: CallId, otherwise: Stage)
    requires LedgerOk(a, rows, queued) && a.tool(id).Usable?
    ensures Expected(a, id, LookOf(rows, id, otherwise))
  {
  }

  lemma WorkersKeep(a: Agent, w: World, e: Event)
    requires Transparent(a) && InsideOk(a, w) && Enabled(a, w, e) && (e.Deliver? || e.Settle?)
    ensures var v := Apply(a, w, e); InsideOk(a, v) && v.run == w.run && v.cutShort == w.cutShort
  {
    var v := Apply(a, w, e);
    assert LedgerOk(a, v.rows, v.queued);
  }

  lemma CallsKeep(a: Agent, w: World, e: Event)
    requires Transparent(a) && InsideOk(a, w) && Enabled(a, w, e)
    requires e.Begin? || e.Record? || e.Look? || e.Poll?
    ensures var v := Apply(a, w, e); InsideOk(a, v) && v.run == w.run && v.cutShort == w.cutShort
  {
    var o, id := e.o, Current(w, e.o);
    match e
    case Begin(_) =>
      ClaimIsExpected(a, w.rows, w.queued, id);
      var (rows, r) := ClaimOf(w.rows, id, a.tool(id).effect);
      ReactKeeps(a, w, w.(rows := rows), o, r);
    case Record(_) =>
      var rows := Update(w.rows, id, RecordOf(a.tool(id).does));
      ReactKeeps(a, w, w.(rows := rows), o, Told(RecordOf(a.tool(id).does)));
    case Look(_) =>
      LookIsExpected(a, w.rows, w.queued, id, Enqueueing);
      ReactKeeps(a, w, w, o, LookOf(w.rows, id, Enqueueing));
    case Poll(_) =>
      LookIsExpected(a, w.rows, w.queued, id, Waiting);
      ReactKeeps(a, w, w, o, LookOf(w.rows, id, Waiting));
  }

  lemma TalksKeep(a: Agent, w: World, e: Event)
    requires Transparent(a) && InsideOk(a, w) && Enabled(a, w, e) && (e.Reject? || e.Respond? || e.Enqueue?)
    ensures var v := Apply(a, w, e); InsideOk(a, v) && v.run == w.run && v.cutShort == w.cutShort
  {
    match e
    case Reject(o) =>
      CollectKeeps(a, w.run.workers[o], w.talks[o], ToolOutcome(a, Current(w, o)));
      TalkMoves(a, w, Apply(a, w, e), o);
    case Respond(o) => TalkMoves(a, w, Apply(a, w, e), o);
    case Enqueue(o) => ReactKeeps(a, w, w.(queued := w.queued + {Current(w, o)}), o, Stay(Waiting));
  }

  /** What happens inside an attempt, and in the worker processes, stays out of the run. */
  lemma InsideStep(a: Agent, w: World, e: Event)
    requires Transparent(a) && InsideOk(a, w) && Enabled(a, w, e) && !e.Store? && !e.Turn? && !e.TimeUp?
    ensures var v := Apply(a, w, e); InsideOk(a, v) && v.run == w.run && v.cutShort == w.cutShort
  {
    if e.Deliver? || e.Settle? { WorkersKeep(a, w, e); }
    else if e.Begin? || e.Record? || e.Look? || e.Poll? { CallsKeep(a, w, e); }
    else { TalksKeep(a, w, e); }
  }

  // --- The run's progress ------------------------------------------------------------

  function Kept(row: RunRow, batches: seq<seq<Message>>): History {
    History(row.steps, Flatten(batches))
  }

  /** From here the run still ends as it would have. */
  predicate Open(a: Agent, h: History) { Uninterrupted(a, h) == Whole(a) }

  /** What a worker holds leads to that ending too. */
  predicate Carries(a: Agent, h: History, k: RunMachine.Worker) {
    match k.pc
    case Stopped => true
    case Asking(n) => Open(a, h) && n == 1 && MayStep(a.config.limits, k.usage)
    case Charging(_) => false
    case Committing(step, answer) =>
      var next := History(h.steps + [step], h.saved + k.pending);
      && Open(a, h)
      && (if answer.None? then Open(a, next) else Whole(a) == Ending(next, RunStatus.Completed, answer, None))
    case Renewing(_, answer) =>
      if answer.None? then Open(a, h) else Whole(a) == Ending(h, RunStatus.Completed, answer, None)
    case Finishing(outcome) =>
      && Whole(a) == Ending(h, outcome.status, outcome.answer, outcome.error)
      && (!outcome.status.Completed? ==> Open(a, h))
    case _ => Open(a, h)
  }

  /** The ending the reply settles, if it settles one. */
  function ReplySettles(a: Agent, h: History, r: Response): Option<Ending> {
    match r.stop
    case Refusal => Some(Failing(h, UpstreamRefusal))
    case MaxTokens => Some(Failing(h, UpstreamTruncated))
    case PauseTurn => Some(Failing(h, UpstreamTruncated))
    case ToolUse => if ToolUses(r.content) == [] then Some(Failing(h, UpstreamTruncated)) else None
    case _ => Some(Ending(Extended(a, h, r), RunStatus.Completed, Some(AnswerFrom(r.content)), None))
  }

  lemma OneStepOf(a: Agent, h: History)
    requires MayStep(a.config.limits, Spent(h.steps))
    ensures var r := Reply(a, h);
            Uninterrupted(a, h) == if ReplySettles(a, h, r).Some? then ReplySettles(a, h, r).value
                                   else Uninterrupted(a, Extended(a, h, r))
  {
    SpentSteps(h.steps);
  }

  ghost predicate AnswersInFull(end: Ending) {
    var saved := end.history.saved;
    && |saved| > 0 && saved[|saved| - 1].role.Assistant?
    && end.answer.Some? && Joins(saved[|saved| - 1].content, end.answer.value)
  }

  lemma FinalAnswersInFull(a: Agent, h: History, r: Response)
    requires !r.stop.ToolUse?
    ensures AnswersInFull(Ending(Extended(a, h, r), RunStatus.Completed, Some(AnswerFrom(r.content)), None))
  {
    AnswerJoins(r.content, AnswerFrom(r.content));
  }

  lemma {:induction false} AnswersFrom(a: Agent, h: History)
    ensures Uninterrupted(a, h).status.Completed? ==> AnswersInFull(Uninterrupted(a, h))
    decreases a.config.limits.maxSteps - |h.steps|
  {
    SpentSteps(h.steps);
    if MayStep(a.config.limits, Spent(h.steps)) {
      OneStepOf(a, h);
      var r := Reply(a, h);
      if ReplySettles(a, h, r).None? { AnswersFrom(a, Extended(a, h, r)); }
      else if ReplySettles(a, h, r).value.status.Completed? { FinalAnswersInFull(a, h, r); }
    }
  }

  /** Its first request is the question alone, and its answer every text of its last turn. */
  lemma WholeAsksAndAnswers(a: Agent)
    ensures Request(a, NOTHING) == [Message(User, [TextBlock(a.config.query)])]
    ensures Whole(a).status.Completed? ==> AnswersInFull(Whole(a))
  {
    AnswersFrom(a, NOTHING);
  }

  /** What the loop makes of a reply is what the reply settles, or one more committed turn. */
  lemma AnsweredSettles(a: Agent, h: History, k: RunMachine.Worker, t: Talk)
    requires k.pc == RunMachine.Asking(1) && k.steps == h.steps && k.pending == Unsaved(a.config, |h.steps|)
    requires t.results == Results(a, |h.steps|, t.Uses()) && t.records == Records(a, |h.steps|, t.Uses())
    ensures var k' := RunMachine.Answered(k, t.response, t.results, t.records);
            var end := ReplySettles(a, h, t.response);
            if k'.pc.Committing? then
              && History(h.steps + [k'.pc.step], h.saved + k'.pending) == Extended(a, h, t.response)
              && (if k'.pc.answer.None? then end.None?
                  else end == Some(Ending(Extended(a, h, t.response), RunStatus.Completed, k'.pc.answer, None)))
            else
              && k'.pc.Finishing? && !k'.pc.outcome.status.Completed?
              && end == Some(Ending(h, k'.pc.outcome.status, k'.pc.outcome.answer, k'.pc.outcome.error))
  {
    if RunMachine.Answered(k, t.response, t.results, t.records).pc.Committing? { TurnExtends(a, h, k, t); }
  }

  /** Once every call is answered the answers are all of the expected ones. */
  lemma InFull(a: Agent, k: RunMachine.Worker, t: Talk)
    requires TalkOk(a, k, t) && t.Answered()
    ensures t.response == a.model(k.messages, MaxTokensForNextStep(a.config.limits, k.usage))
    ensures t.results == Results(a, |k.steps|, t.Uses()) && t.records == Records(a, |k.steps|, t.Uses())
  {
  }

  /** A reply of the model, played out in full, moves the worker along the uninterrupted run. */
  lemma AnsweredCarries(a: Agent, h: History, k: RunMachine.Worker, t: Talk)
    requires k.steps == h.steps && k.pending == Unsaved(a.config, |h.steps|)
    requires k.pc == RunMachine.Asking(1) && MayStep(a.config.limits, Spent(h.steps)) && Open(a, h)
    requires t.response == Reply(a, h)
    requires t.results == Results(a, |h.steps|, t.Uses()) && t.records == Records(a, |h.steps|, t.Uses())
    ensures Carries(a, h, RunMachine.Answered(k, t.response, t.results, t.records))
  {
    AnsweredSettles(a, h, k, t);
    OneStepOf(a, h);
  }

  lemma TurnExtends(a: Agent, h: History, k: RunMachine.Worker, t: Talk)
    requires k.pc == RunMachine.Asking(1) && k.steps == h.steps && k.pending == Unsaved(a.config, |h.steps|)
    requires t.results == Results(a, |h.steps|, t.Uses()) && t.records == Records(a, |h.steps|, t.Uses())
    requires RunMachine.Answered(k, t.response, t.results, t.records).pc.Committing?
    ensures var k' := RunMachine.Answered(k, t.response, t.results, t.records);
            History(h.steps + [k'.pc.step], h.saved + k'.pending) == Extended(a, h, t.response)
  {
  }

  /** Where a run stands that was not cut short. */
  predicate OnCourse(a: Agent, w: RunMachine.World) {
    var h := Kept(w.row, w.batches);
    && (forall o | o in w.workers :: Carries(a, h, w.workers[o]))
    && (if w.row.status.IsTerminal() then
          && Whole(a) == Ending(h, w.row.status, w.row.answer, w.row.error)
          && forall o | o in w.workers :: w.workers[o].pc.Stopped?
        else Open(a, h) || exists o | o in w.workers :: Closing(w.workers[o]))
  }

  lemma MoveKeepsCourse(a: Agent, w: RunMachine.World, v: RunMachine.World, o: Owner)
    requires OnCourse(a, w) && !w.row.status.IsTerminal() && !v.row.status.IsTerminal()
    requires v.row.steps == w.row.steps && v.batches == w.batches
    requires o in v.workers && v.workers == w.workers[o := v.workers[o]]
    requires var h := Kept(w.row, w.batches);
             Carries(a, h, v.workers[o]) && (Open(a, h) || Closing(v.workers[o]))
    ensures OnCourse(a, v)
  {
    forall p | p in v.workers ensures Carries(a, Kept(v.row, v.batches), v.workers[p]) {
      assert p != o ==> Carries(a, Kept(w.row, w.batches), w.workers[p]);
    }
  }

  lemma ClaimKeepsCourse(a: Agent, w: RunMachine.World, v: RunMachine.World, o: Owner)
    requires OnCourse(a, w) && !w.row.status.IsTerminal() && !v.row.status.IsTerminal()
    requires v.row.steps == w.row.steps && v.batches == w.batches
    requires o !in w.workers && o in v.workers && v.workers == w.workers[o := v.workers[o]]
    requires v.workers[o].pc.Loading? && Alone(v)
    ensures OnCourse(a, v)
  {
    OthersStopped(w, v, o);
    MoveKeepsCourse(a, w, v, o);
  }

  lemma OthersStopped(w: RunMachine.World, v: RunMachine.World, o: Owner)
    requires Alone(v) && o !in w.workers && o in v.workers && v.workers == w.workers[o := v.workers[o]]
    requires v.workers[o].pc.Loading?
    ensures forall p | p in w.workers :: w.workers[p].pc.Stopped?
  {
    forall p | p in w.workers ensures w.workers[p].pc.Stopped? {
      assert p != o && v.workers[p] == w.workers[p];
    }
  }

  lemma CheckedCarries(a: Agent, h: History, k: RunMachine.Worker)
    requires Open(a, h) && k.usage == Spent(h.steps)
    ensures Carries(a, h, RunMachine.Checked(a.config, k))
  {
  }

  /** A step committed: the worker, who has yet to renew, carries the run on from there. */
  lemma CommittedCarries(
    a: Agent, row: RunRow, batches: seq<seq<Message>>, k: RunMachine.Worker, l: RunMachine.Worker)
    requires k.pc.Committing? && Carries(a, Kept(row, batches), k)
    requires l.pc == RunMachine.Renewing(k.pc.step, k.pc.answer)
    ensures var h := Kept(Committed(row, k.pc.step, k.pending), batches + [k.pending]);
            Carries(a, h, l) && (Open(a, h) || Closing(l))
  {
    FlattenAppend(batches, k.pending);
  }

  lemma OnCourseByOne(a: Agent, v: RunMachine.World, o: Owner)
    requires o in v.workers && Only(v, o) && !v.row.status.IsTerminal()
    requires var h := Kept(v.row, v.batches);
             Carries(a, h, v.workers[o]) && (Open(a, h) || Closing(v.workers[o]))
    ensures OnCourse(a, v)
  {
    var h := Kept(v.row, v.batches);
    forall p | p in v.workers ensures Carries(a, h, v.workers[p]) {
      if p != o { StoppedCarries(a, h, v.workers[p]); }
    }
  }

  lemma StoppedCarries(a: Agent, h: History, k: RunMachine.Worker)
    requires k.pc.Stopped?
    ensures Carries(a, h, k)
  {
  }

  lemma OnlyTheMover(w: RunMachine.World, v: RunMachine.World, o: Owner)
    requires Alone(w) && o in w.workers && !w.workers[o].pc.Stopped?
    requires o in v.workers && v.workers == w.workers[o := v.workers[o]]
    ensures Only(v, o)
  {
  }

  lemma CommitKeepsCourse(a: Agent, w: RunMachine.World, o: Owner)
    requires o in w.workers && w.workers[o].pc.Committing?
    requires SoloInv(a.config, w) && Alone(w) && OnCourse(a, w)
    ensures OnCourse(a, RunMachine.CommitEffect(w, o))
  {
    var k, v := w.workers[o], RunMachine.CommitEffect(w, o);
    assert WorkerOk(a.config, |w.row.steps|, k) && Agrees(a.config, w.row, Flatten(w.batches), k);
    CommittedAgrees(a.config, w.row, w.batches, k);
    RunMachine.CommitFrame(w, o);
    CommittedCarries(a, w.row, w.batches, k, v.workers[o]);
    OnlyTheMover(w, v, o);
    OnCourseByOne(a, v, o);
  }

  lemma FinishKeepsCourse(a: Agent, w: RunMachine.World, o: Owner)
    requires o in w.workers && w.workers[o].pc.Finishing?
    requires Alone(w) && OnCourse(a, w)
    ensures OnCourse(a, RunMachine.Apply(a.config, w, RunMachine.Finish(o)))
  {
    var v := RunMachine.Apply(a.config, w, RunMachine.Finish(o));
    assert Carries(a, Kept(w.row, w.batches), w.workers[o]);
    forall p | p in v.workers ensures v.workers[p].pc.Stopped? {
      assert p != o ==> w.workers[p].pc.Stopped?;
    }
  }

  lemma RenewKeepsCourse(a: Agent, w: RunMachine.World, o: Owner)
    requires o in w.workers && w.workers[o].pc.Renewing?
    requires OnCourse(a, w) && !CutsShort(w, RunMachine.Renew(o))
    ensures OnCourse(a, RunMachine.RenewEffect(a.config, w, o))
  {
    assert Carries(a, Kept(w.row, w.batches), w.workers[o]);
    RunMachine.RenewFrame(a.config, w, o);
    MoveKeepsCourse(a, w, RunMachine.RenewEffect(a.config, w, o), o);
  }

  lemma MovesOnCourse(a: Agent, w: RunMachine.World, e: RunMachine.Event)
    requires RunMachine.Enabled(a.config, w, e) && (e.LoadRow? || e.Check? || e.Release? || e.Crash?)
    requires SoloInv(a.config, w) && Carries(a, Kept(w.row, w.batches), w.workers[e.o])
    requires !w.workers[e.o].pc.Stopped? && !CutsShort(w, e)
    ensures var v, h := RunMachine.Apply(a.config, w, e), Kept(w.row, w.batches);
            Carries(a, h, v.workers[e.o]) && Open(a, h)
  {
    var k, h := w.workers[e.o], Kept(w.row, w.batches);
    assert Agrees(a.config, w.row, Flatten(w.batches), k);
    if e.Check? { CheckedCarries(a, h, k); }
  }

  lemma WorkerFrame(c: RunMachine.Config, w: RunMachine.World, e: RunMachine.Event)
    requires RunMachine.Enabled(c, w, e) && (e.LoadRow? || e.Check? || e.Release? || e.Crash?)
    ensures var v := RunMachine.Apply(c, w, e);
            && v.row.steps == w.row.steps && v.batches == w.batches
            && (!w.row.status.IsTerminal() ==> !v.row.status.IsTerminal())
            && e.o in v.workers && v.workers == w.workers[e.o := v.workers[e.o]]
            && (w.workers[e.o].pc.Stopped? ==> v == w)
  {
    if w.workers[e.o].pc.Stopped? { assert RunMachine.Apply(c, w, e).workers == w.workers; }
  }

  lemma WorkerKeepsCourse(a: Agent, w: RunMachine.World, e: RunMachine.Event)
    requires SoloInv(a.config, w) && OnCourse(a, w) && RunMachine.Enabled(a.config, w, e) && !CutsShort(w, e)
    requires e.LoadRow? || e.Check? || e.Release? || e.Crash?
    ensures OnCourse(a, RunMachine.Apply(a.config, w, e))
  {
    WorkerFrame(a.config, w, e);
    if !w.workers[e.o].pc.Stopped? {
      MovesOnCourse(a, w, e);
      MoveKeepsCourse(a, w, RunMachine.Apply(a.config, w, e), e.o);
    }
  }

  lemma StoreKeepsCourse(a: Agent, w: RunMachine.World, e: RunMachine.Event)
    requires SoloInv(a.config, w) && Alone(w) && OnCourse(a, w)
    requires RunMachine.Enabled(a.config, w, e) && Outside(e) && !CutsShort(w, e)
    requires Alone(RunMachine.Apply(a.config, w, e))
    ensures OnCourse(a, RunMachine.Apply(a.config, w, e))
  {
    match e
    case Claim(o) => ClaimKeepsCourse(a, w, RunMachine.Apply(a.config, w, e), o);
    case Commit(o) => CommitKeepsCourse(a, w, o);
    case Renew(o) => RenewKeepsCourse(a, w, o);
    case Finish(o) => FinishKeepsCourse(a, w, o);
    case Tick(later) => assert OnCourse(a, w.(now := later));
    case _ => WorkerKeepsCourse(a, w, e);
  }

  // --- Cut short ---------------------------------------------------------------------

  /** A run resumed after its final commit asks again: it fails, or ends with steps to spare. */
  predicate OffCourse(a: Agent, w: RunMachine.World) {
    var n, m := |Whole(a).history.steps|, |w.row.steps|;
    && Whole(a).status.Completed? && n <= m
    && (w.row.status.Completed? ==> n < m)
    && forall o | o in w.workers && Closing(w.workers[o]) :: n < m
  }

  lemma CuttingGoesOff(a: Agent, w: RunMachine.World, e: RunMachine.Event)
    requires OnCourse(a, w) && Alone(w) && RunMachine.Enabled(a.config, w, e) && CutsShort(w, e)
    ensures OffCourse(a, RunMachine.Apply(a.config, w, e))
  {
    var v := RunMachine.Apply(a.config, w, e);
    assert Carries(a, Kept(w.row, w.batches), w.workers[e.o]);
    forall p | p in v.workers ensures v.workers[p].pc.Stopped? {
      assert p != e.o ==> w.workers[p].pc.Stopped?;
    }
  }

  lemma MoveStaysOff(a: Agent, w: RunMachine.World, v: RunMachine.World, o: Owner)
    requires OffCourse(a, w) && |v.row.steps| >= |w.row.steps|
    requires o in v.workers && v.workers == w.workers[o := v.workers[o]]
    requires v.row.status.Completed? || Closing(v.workers[o]) ==>
               |v.row.steps| > |w.row.steps| || w.row.status.Completed? || (o in w.workers && Closing(w.workers[o]))
    ensures OffCourse(a, v)
  {
  }

  lemma CommitStaysOff(a: Agent, w: RunMachine.World, o: Owner)
    requires o in w.workers && w.workers[o].pc.Committing?
    requires SoloInv(a.config, w) && OffCourse(a, w)
    ensures OffCourse(a, RunMachine.CommitEffect(w, o))
  {
    CommittedAgrees(a.config, w.row, w.batches, w.workers[o]);
    MoveStaysOff(a, w, RunMachine.CommitEffect(w, o), o);
  }

  lemma StepStaysOff(a: Agent, w: RunMachine.World, e: RunMachine.Event)
    requires OffCourse(a, w) && RunMachine.Enabled(a.config, w, e) && !e.Tick? && !e.Commit?
    ensures OffCourse(a, RunMachine.Apply(a.config, w, e))
  {
    MoveStaysOff(a, w, RunMachine.Apply(a.config, w, e), e.o);
  }

  lemma StaysOff(a: Agent, w: RunMachine.World, e: RunMachine.Event)
    requires SoloInv(a.config, w) && OffCourse(a, w) && RunMachine.Enabled(a.config, w, e) && !e.Tick?
    ensures OffCourse(a, RunMachine.Apply(a.config, w, e))
  {
    if e.Commit? { CommitStaysOff(a, w, e.o); } else { StepStaysOff(a, w, e); }
  }

  // --- Every step --------------------------------------------------------------------

  ghost predicate Inv(a: Agent, w: World) {
    && SoloInv(a.config, w.run) && InsideOk(a, w)
    && (if w.cutShort then OffCourse(a, w.run) else OnCourse(a, w.run))
  }

  /** Outside an attempt, one who asks goes on asking, or dies; and the dead stay dead. */
  lemma OutsideMoves(c: RunMachine.Config, w: RunMachine.World, e: RunMachine.Event, o: Owner)
    requires RunMachine.Enabled(c, w, e) && Outside(e)
    requires o in w.workers && (w.workers[o].pc.Asking? || w.workers[o].pc.Stopped?)
    ensures var v := RunMachine.Apply(c, w, e);
            o in v.workers && (v.workers[o] == w.workers[o] || v.workers[o].pc.Stopped?)
  {
  }

  /** Whoever is inside an attempt is where it was, or dead. */
  lemma StandingKeepsInside(a: Agent, w: World, v: World)
    requires InsideOk(a, w) && v.rows == w.rows && v.queued == w.queued && v.talks == w.talks
    requires forall o | o in w.talks ::
               o in w.run.workers && o in v.run.workers
               && (v.run.workers[o] == w.run.workers[o] || v.run.workers[o].pc.Stopped?)
    ensures InsideOk(a, v)
  {
  }

  lemma StoreKeepsInside(a: Agent, w: World, e: RunMachine.Event)
    requires InsideOk(a, w) && Enabled(a, w, Store(e))
    ensures InsideOk(a, Apply(a, w, Store(e)))
  {
    var v := Apply(a, w, Store(e));
    forall o | o in w.talks
      ensures o in w.run.workers && o in v.run.workers
      ensures v.run.workers[o] == w.run.workers[o] || v.run.workers[o].pc.Stopped?
    {
      OutsideMoves(a.config, w.run, e, o);
    }
    StandingKeepsInside(a, w, v);
  }

  lemma StoreStep(a: Agent, w: World, e: RunMachine.Event)
    requires Inv(a, w) && Enabled(a, w, Store(e)) && Alone(w.run) && Alone(Apply(a, w, Store(e)).run)
    ensures Inv(a, Apply(a, w, Store(e)))
  {
    SoloStep(a.config, w.run, e);
    StoreKeepsInside(a, w, e);
    if w.cutShort {
      if !e.Tick? { StaysOff(a, w.run, e); }
    } else if CutsShort(w.run, e) {
      CuttingGoesOff(a, w.run, e);
    } else {
      StoreKeepsCourse(a, w.run, e);
    }
  }

  lemma ResultsAnswer(a: Agent, stepIdx: nat, content: seq<Block>)
    ensures RunMachine.Answers(content, Results(a, stepIdx, ToolUses(content)))
  {
    RunMachine.AnswersEach(content, Results(a, stepIdx, ToolUses(content)));
  }

  /** An attempt played out is one the run accepts. */
  lemma TurnIsAnswer(a: Agent, w: World, o: Owner)
    requires Transparent(a) && InsideOk(a, w) && Enabled(a, w, Turn(o))
    ensures var t := w.talks[o]; var e := RunMachine.Answer(o, t.response, t.results, t.records);
            && RunMachine.Enabled(a.config, w.run, e) && Keepable(e)
            && Apply(a, w, Turn(o)).run == RunMachine.Apply(a.config, w.run, e)
  {
    var k, t := w.run.workers[o], w.talks[o];
    assert TalkOk(a, k, t);
    ResultsAnswer(a, |k.steps|, t.response.content);
  }

  lemma TurnStep(a: Agent, w: World, o: Owner)
    requires Transparent(a) && Inv(a, w) && Enabled(a, w, Turn(o)) && Alone(w.run)
    ensures Inv(a, Apply(a, w, Turn(o)))
  {
    var k, t, v := w.run.workers[o], w.talks[o], Apply(a, w, Turn(o));
    var e := RunMachine.Answer(o, t.response, t.results, t.records);
    TurnIsAnswer(a, w, o);
    SoloStep(a.config, w.run, e);
    if w.cutShort {
      StaysOff(a, w.run, e);
    } else {
      TurnKeepsCourse(a, w.run, o, t);
    }
  }

  lemma TurnKeepsCourse(a: Agent, w: RunMachine.World, o: Owner, t: Talk)
    requires o in w.workers && w.workers[o].pc.Asking? && TalkOk(a, w.workers[o], t) && t.Answered()
    requires SoloInv(a.config, w) && OnCourse(a, w)
    ensures OnCourse(a, RunMachine.Put(w, o, RunMachine.Answered(w.workers[o], t.response, t.results, t.records)))
  {
    var k, h := w.workers[o], Kept(w.row, w.batches);
    assert Carries(a, h, k) && Agrees(a.config, w.row, Flatten(w.batches), k) && WorkerOk(a.config, |w.row.steps|, k);
    InFull(a, k, t);
    AnsweredCarries(a, h, k, t);
    MoveKeepsCourse(
      a, w, RunMachine.Put(w, o, RunMachine.Answered(k, t.response, t.results, t.records)), o);
  }

  lemma TimeUpStep(a: Agent, w: World, o: Owner)
    requires Inv(a, w) && Enabled(a, w, TimeUp(o)) && Alone(w.run)
    ensures Inv(a, Apply(a, w, TimeUp(o)))
  {
    var v, e := Apply(a, w, TimeUp(o)), RunMachine.GiveUp(o, RunMachine.ToolInFlight);
    SoloStep(a.config, w.run, e);
    if w.cutShort {
      StaysOff(a, w.run, e);
    } else {
      assert Carries(a, Kept(w.run.row, w.run.batches), w.run.workers[o]);
      MoveKeepsCourse(a, w.run, v.run, o);
    }
  }

  /** One live worker at every point of the run. */
  predicate OneAtATime(a: Agent, w: World, es: seq<Event>)
    requires CanRun(a, w, es)
    decreases |es|
  {
    Alone(w.run) && (|es| == 0 || OneAtATime(a, Apply(a, w, es[0]), es[1..]))
  }

  lemma {:induction false} ScheduleSnoc(a: Agent, w: World, es: seq<Event>, e: Event)
    requires CanRun(a, w, es) && OneAtATime(a, w, es)
    requires Enabled(a, Run(a, w, es), e) && Alone(Apply(a, Run(a, w, es), e).run)
    ensures CanRun(a, w, es + [e]) && OneAtATime(a, w, es + [e])
    ensures Run(a, w, es + [e]) == Apply(a, Run(a, w, es), e)
    decreases |es|
  {
    if |es| == 0 {
      assert es + [e] == [e] && [e][1..] == [];
      assert CanRun(a, Apply(a, w, e), []) && OneAtATime(a, Apply(a, w, e), []);
    } else {
      ScheduleSnoc(a, Apply(a, w, es[0]), es[1..], e);
      assert (es + [e])[0] == es[0] && (es + [e])[1..] == es[1..] + [e];
    }
  }

  lemma {:induction false} InvHolds(a: Agent, w: World, es: seq<Event>)
    requires Transparent(a) && Inv(a, w) && CanRun(a, w, es) && OneAtATime(a, w, es)
    ensures Inv(a, Run(a, w, es))
    decreases |es|
  {
    if |es| > 0 {
      match es[0] {
        case Store(e) => StoreStep(a, w, e);
        case Turn(o) => TurnStep(a, w, o);
        case TimeUp(o) => TimeUpStep(a, w, o);
        case _ => InsideStep(a, w, es[0]);
      }
      InvHolds(a, Apply(a, w, es[0]), es[1..]);
    }
  }

  // --- The theorem -------------------------------------------------------------------

  /** The row, as the store gives it back, is this ending. */
  predicate EndedAs(row: RunRow, end: Ending) {
    && row.status == end.status && row.answer == end.answer && row.error == end.error
    && Load(row).Ok?
    && Load(row).value.steps == end.history.steps
    && Load(row).value.messages == end.history.saved
    && Load(row).value.usage == Spent(end.history.steps)
  }

  lemma LoadGivesBack(c: RunMachine.Config, w: RunMachine.World)
    requires SoloInv(c, w)
    ensures Load(w.row).Ok?
    ensures var r := Load(w.row).value;
            r.steps == w.row.steps && r.messages == Flatten(w.batches) && r.usage == Spent(w.row.steps)
  {
    LoadedAgrees(c, w.row, w.batches, RunMachine.NEWCOMER);
    LoadReads(c, w.row, w.batches);
    ConversationRoundTrip(Flatten(w.batches));
  }

  lemma StartsOnCourse(a: Agent)
    ensures Inv(a, Start(a))
  {
    assert Kept(Start(a).run.row, Start(a).run.batches) == NOTHING;
  }

  /**
   * However a run was crashed, resumed, paused and redelivered, one worker at a time: once it
   * has ended, its status, answer, error, steps, stored conversation and usage are those of
   * the uninterrupted run exactly when no worker was lost between the final commit and
   * `finish`.
   */
  lemma CrashesAreInvisible(a: Agent, es: seq<Event>)
    requires Transparent(a) && CanRun(a, Start(a), es) && OneAtATime(a, Start(a), es)
    requires Run(a, Start(a), es).run.row.status.IsTerminal()
    ensures var w := Run(a, Start(a), es);
            EndedAs(w.run.row, Whole(a)) <==> !w.cutShort
  {
    StartsOnCourse(a);
    InvHolds(a, Start(a), es);
    LoadGivesBack(a.config, Run(a, Start(a), es).run);
  }

  // --- The ledger, for any number of live workers ------------------------------------

  /** A worker leaves its attempt; the others are where they were. */
  lemma LeavingKeepsInside(a: Agent, w: World, v: World, o: Owner)
    requires InsideOk(a, w) && v.rows == w.rows && v.queued == w.queued && v.talks == w.talks - {o}
    requires o in v.run.workers && v.run.workers == w.run.workers[o := v.run.workers[o]]
    ensures InsideOk(a, v)
  {
  }

  lemma LeavingFrame(a: Agent, w: World, e: Event)
    requires Enabled(a, w, e) && (e.Turn? || e.TimeUp?)
    ensures var v := Apply(a, w, e);
            && v.rows == w.rows && v.queued == w.queued && v.talks == w.talks - {e.o}
            && e.o in v.run.workers && v.run.workers == w.run.workers[e.o := v.run.workers[e.o]]
  {
  }

  lemma RunStepsKeepInside(a: Agent, w: World, e: Event)
    requires InsideOk(a, w) && Enabled(a, w, e) && (e.Turn? || e.TimeUp?)
    ensures InsideOk(a, Apply(a, w, e))
  {
    LeavingFrame(a, w, e);
    LeavingKeepsInside(a, w, Apply(a, w, e), e.o);
  }

  lemma {:induction false} InsideHolds(a: Agent, w: World, es: seq<Event>)
    requires Transparent(a) && InsideOk(a, w) && CanRun(a, w, es)
    ensures InsideOk(a, Run(a, w, es))
    decreases |es|
  {
    if |es| > 0 {
      match es[0] {
        case Store(e) => StoreKeepsInside(a, w, e);
        case Turn(_) => RunStepsKeepInside(a, w, es[0]);
        case TimeUp(_) => RunStepsKeepInside(a, w, es[0]);
        case _ => InsideStep(a, w, es[0]);
      }
      InsideHolds(a, Apply(a, w, es[0]), es[1..]);
    }
  }

  /**
   * Over every interleaving of live and stale workers, closed ledger rows hold what their
   * tools do, whoever ran them and however often; so nothing is ever under review.
   */
  lemma LedgerHoldsWhatToolsDo(a: Agent, es: seq<Event>, id: CallId)
    requires Transparent(a) && CanRun(a, Start(a), es)
    requires id in Run(a, Start(a), es).rows && Run(a, Start(a), es).rows[id].IsTerminal()
    ensures Run(a, Start(a), es).rows[id] == ToolOutcome(a, id)
    ensures !Run(a, Start(a), es).rows[id].status.NeedsReview?
  {
    InsideHolds(a, Start(a), es);
  }
}
