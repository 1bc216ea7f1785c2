/**
 * Overlapping and stale workers. They cannot lead a run astray: each of them, wherever it
 * stands, stands on the uninterrupted run's own path, and so do the rows. Only a worker that
 * loads the row after its final step was committed, whether or not the run is finished by
 * then, can leave that path; and `LateLoad` shows that any such worker can.
 */
module Overlap {
  import opened Wrappers
  import opened Json
  import opened Messages
  import opened RunState
  import opened RunStore
  import RunMachine
  import opened RunSafety
  import opened SoloRun
  import opened DurableRun
  import opened CrashTransparency

  // --- The path ----------------------------------------------------------------------

  /** What the uninterrupted run has committed after `n` steps, if it takes that many. */
  function Nth(a: Agent, n: nat): (h: History)
    ensures |h.steps| == n
  {
    if n == 0 then NOTHING else var h := Nth(a, n - 1); Extended(a, h, Reply(a, h))
  }

  /** The uninterrupted run takes `n` steps and is not settled by them. */
  predicate Goes(a: Agent, n: nat) {
    n > 0 ==>
      var h := Nth(a, n - 1);
      Goes(a, n - 1) && MayStep(a.config.limits, Spent(h.steps)) && ReplySettles(a, h, Reply(a, h)).None?
  }

  lemma {:induction false} GoesOpen(a: Agent, n: nat)
    requires Goes(a, n)
    ensures Open(a, Nth(a, n))
  {
    if n > 0 {
      GoesOpen(a, n - 1);
      OneStepOf(a, Nth(a, n - 1));
    }
  }

  predicate PartOf(h: History, g: History) { h.steps <= g.steps && h.saved <= g.saved }

  /** The messages a reply adds. */
  function TurnOf(a: Agent, stepIdx: nat, r: Response): seq<Message> {
    [Message(Assistant, r.content)]
    + if r.stop.ToolUse? then [Message(User, Results(a, stepIdx, ToolUses(r.content)))] else []
  }

  lemma ExtendedSaves(a: Agent, h: History, r: Response)
    ensures Extended(a, h, r).saved == (h.saved + Unsaved(a.config, |h.steps|)) + TurnOf(a, |h.steps|, r)
  {
  }

  lemma ExtendedGrows(a: Agent, h: History, r: Response)
    ensures PartOf(h, Extended(a, h, r)) && |Extended(a, h, r).steps| == |h.steps| + 1
  {
    ExtendedSaves(a, h, r);
  }

  lemma SettledGrows(a: Agent, h: History, r: Response)
    requires ReplySettles(a, h, r).Some?
    ensures PartOf(h, ReplySettles(a, h, r).value.history)
  {
    ExtendedGrows(a, h, r);
  }

  lemma {:induction false} UninterruptedGrows(a: Agent, h: History)
    ensures PartOf(h, Uninterrupted(a, h).history)
    decreases a.config.limits.maxSteps - |h.steps|
  {
    SpentSteps(h.steps);
    if MayStep(a.config.limits, Spent(h.steps)) {
      var r := Reply(a, h);
      OneStepOf(a, h);
      if ReplySettles(a, h, r).Some? {
        SettledGrows(a, h, r);
      } else {
        ExtendedGrows(a, h, r);
        UninterruptedGrows(a, Extended(a, h, r));
      }
    }
  }

  /** Whatever the run goes through is a beginning of where it ends. */
  lemma PathIsPrefix(a: Agent, n: nat)
    requires Goes(a, n)
    ensures PartOf(Nth(a, n), Whole(a).history)
  {
    GoesOpen(a, n);
    UninterruptedGrows(a, Nth(a, n));
  }

  lemma {:induction false} NthStable(a: Agent, n: nat)
    requires Transparent(a)
    ensures StableAll(Nth(a, n).saved)
  {
    if n > 0 {
      NthStable(a, n - 1);
      ExtendedStable(a, Nth(a, n - 1), Reply(a, Nth(a, n - 1)));
    }
  }

  lemma TurnStable(a: Agent, stepIdx: nat, r: Response)
    requires forall b | b in r.content :: Stable(b)
    ensures StableAll(TurnOf(a, stepIdx, r))
  {
    if r.stop.ToolUse? { ResultsStable(Results(a, stepIdx, ToolUses(r.content))); }
  }

  lemma ExtendedStable(a: Agent, h: History, r: Response)
    requires StableAll(h.saved) && forall b | b in r.content :: Stable(b)
    ensures StableAll(Extended(a, h, r).saved)
  {
    TurnStable(a, |h.steps|, r);
    OpeningStable(a.config);
    StableAppend(h.saved, Unsaved(a.config, |h.steps|));
    StableAppend(h.saved + Unsaved(a.config, |h.steps|), TurnOf(a, |h.steps|, r));
    ExtendedSaves(a, h, r);
  }

  // --- The rows and the workers on it ------------------------------------------------

  /** The last step committed, if there is one, was not the final turn. */
  predicate Unclosed(row: RunRow) { |row.steps| == 0 || row.steps[|row.steps| - 1].stop.ToolUse? }

  predicate EndsAt(a: Agent, n: nat, status: RunStatus, answer: Option<Text>, error: Option<ErrorCode>) {
    Whole(a) == Ending(Nth(a, n), status, answer, error)
  }

  predicate TablesOnPath(a: Agent, row: RunRow, batches: seq<seq<Message>>) {
    var n := |row.steps|;
    && Kept(row, batches) == Nth(a, n)
    && (if Unclosed(row) then Goes(a, n) else Whole(a).history == Nth(a, n) && Whole(a).status.Completed?)
  }

  predicate RowOnPath(a: Agent, row: RunRow, batches: seq<seq<Message>>) {
    && TablesOnPath(a, row, batches)
    && (row.status.IsTerminal() ==> EndsAt(a, |row.steps|, row.status, row.answer, row.error))
  }

  /** Between steps: the locals are those of the path. */
  predicate Along(a: Agent, k: RunMachine.Worker) {
    var n := |k.steps|;
    var h := Nth(a, n);
    && Goes(a, n) && k.steps == h.steps && k.usage == Spent(h.steps)
    && k.messages == Request(a, h) && k.pending == Unsaved(a.config, n)
  }

  /** One turn further, which is the next of the path or its last. */
  predicate Further(a: Agent, k: RunMachine.Worker, step: StepRecord, answer: Option<Text>) {
    var n := |k.steps|;
    var h := Nth(a, n + 1);
    && Goes(a, n) && k.steps == Nth(a, n).steps && h == History(k.steps + [step], k.messages)
    && k.usage == Spent(h.steps)
    && (if step.stop.ToolUse? then answer.None? && Goes(a, n + 1)
        else answer.Some? && EndsAt(a, n + 1, RunStatus.Completed, answer, None))
  }

  /** Where a worker stands when `taken` steps are committed. */
  predicate OnPath(a: Agent, taken: nat, k: RunMachine.Worker) {
    match k.pc
    case Head => Along(a, k)
    case Asking(attempt) => Along(a, k) && attempt == 1 && MayStep(a.config.limits, k.usage)
    case Charging(_) => true
    case Committing(step, answer) =>
      Further(a, k, step, answer) && k.messages == Nth(a, |k.steps|).saved + k.pending
    case Renewing(step, answer) => Further(a, k, step, answer)
    case Finishing(outcome) =>
      |k.steps| <= taken && EndsAt(a, |k.steps|, outcome.status, outcome.answer, outcome.error)
    case _ => true
  }

  /** The rows and every worker. */
  predicate AllOnPath(a: Agent, w: RunMachine.World) {
    && RowOnPath(a, w.row, w.batches)
    && forall o | o in w.workers :: OnPath(a, |w.row.steps|, w.workers[o])
  }

  ghost predicate PathInv(a: Agent, w: World) {
    RunSafety.Inv(a.config, w.run) && InsideOk(a, w) && AllOnPath(a, w.run)
  }

  /** No more steps are committed than the uninterrupted run takes. */
  lemma RowWithin(a: Agent, row: RunRow, batches: seq<seq<Message>>)
    requires TablesOnPath(a, row, batches)
    ensures PartOf(Kept(row, batches), Whole(a).history)
  {
    if Unclosed(row) { PathIsPrefix(a, |row.steps|); }
  }

  lemma FurtherWithin(a: Agent, k: RunMachine.Worker, step: StepRecord, answer: Option<Text>)
    requires Further(a, k, step, answer)
    ensures PartOf(Nth(a, |k.steps| + 1), Whole(a).history)
  {
    if step.stop.ToolUse? { PathIsPrefix(a, |k.steps| + 1); }
  }

  // --- A worker's own moves ----------------------------------------------------------

  /** What is loaded in time is the path's. */
  lemma LoadedOnPath(a: Agent, row: RunRow, batches: seq<seq<Message>>, k: RunMachine.Worker)
    requires Transparent(a) && RowOk(a.config, row, batches) && TablesOnPath(a, row, batches) && Unclosed(row)
    ensures OnPath(a, |row.steps|, RunMachine.Loaded(a.config, row, k))
  {
    NthStable(a, |row.steps|);
    LoadedAgrees(a.config, row, batches, k);
    LoadReads(a.config, row, batches);
    var l := RunMachine.Loaded(a.config, row, k);
    assert l.pc.Head? && Agrees(a.config, row, Flatten(batches), l);
  }

  lemma CheckedOnPath(a: Agent, taken: nat, k: RunMachine.Worker)
    requires k.pc.Head? && OnPath(a, taken, k) && |k.steps| <= taken
    ensures OnPath(a, taken, RunMachine.Checked(a.config, k))
  {
    GoesOpen(a, |k.steps|);
    SpentSteps(k.steps);
  }

  /** What an answer does to the locals. */
  lemma AnsweredLocals(k: RunMachine.Worker, t: Talk, saved: seq<Message>)
    requires k.pc.Asking? && k.messages == saved + k.pending
    ensures var k' := RunMachine.Answered(k, t.response, t.results, t.records);
            && k'.steps == k.steps
            && (k'.pc.Committing? ==>
                  && k'.messages == saved + k'.pending && k'.usage == k.usage.Plus(k'.pc.step.usage)
                  && (k'.pc.step.stop.ToolUse? <==> k'.pc.answer.None?))
  {
    var turn := [Message(Assistant, t.response.content)]
                + if t.response.stop.ToolUse? then [Message(User, t.results)] else [];
    assert k.messages + turn == saved + (k.pending + turn);
  }

  lemma ReplyEnds(a: Agent, n: nat, r: Response)
    requires Goes(a, n) && MayStep(a.config.limits, Spent(Nth(a, n).steps))
    requires r == Reply(a, Nth(a, n)) && ReplySettles(a, Nth(a, n), r).Some?
    ensures Whole(a) == ReplySettles(a, Nth(a, n), r).value
  {
    GoesOpen(a, n);
    OneStepOf(a, Nth(a, n));
  }

  /** The reply's turn, added to the locals, is the path's next or its last. */
  lemma TurnIsFurther(a: Agent, k: RunMachine.Worker, step: StepRecord, answer: Option<Text>)
    requires Goes(a, |k.steps|) && k.steps == Nth(a, |k.steps|).steps && MayStep(a.config.limits, Spent(k.steps))
    requires History(k.steps + [step], k.messages) == Nth(a, |k.steps| + 1)
    requires k.usage == Spent(k.steps).Plus(step.usage) && (step.stop.ToolUse? <==> answer.None?)
    requires var h := Nth(a, |k.steps|);
             ReplySettles(a, h, Reply(a, h))
             == if answer.None? then None else Some(Ending(Nth(a, |k.steps| + 1), RunStatus.Completed, answer, None))
    ensures Further(a, k, step, answer)
  {
    SpentAppend(k.steps, step);
    if answer.Some? { ReplyEnds(a, |k.steps|, Reply(a, Nth(a, |k.steps|))); }
  }

  /** A turn answered as the model answers and the tools do is the path's next step, or its last. */
  lemma AnsweredCommits(a: Agent, k: RunMachine.Worker, t: Talk)
    requires k.pc == RunMachine.Asking(1) && Along(a, k) && MayStep(a.config.limits, k.usage)
    requires t.response == Reply(a, Nth(a, |k.steps|))
    requires t.results == Results(a, |k.steps|, t.Uses()) && t.records == Records(a, |k.steps|, t.Uses())
    requires RunMachine.Answered(k, t.response, t.results, t.records).pc.Committing?
    ensures var k' := RunMachine.Answered(k, t.response, t.results, t.records);
            k'.steps == k.steps && Further(a, k', k'.pc.step, k'.pc.answer)
            && k'.messages == Nth(a, |k.steps|).saved + k'.pending
  {
    var h, k' := Nth(a, |k.steps|), RunMachine.Answered(k, t.response, t.results, t.records);
    AnsweredLocals(k, t, h.saved);
    AnsweredSettles(a, h, k, t);
    TurnIsFurther(a, k', k'.pc.step, k'.pc.answer);
  }

  /** Or it settles the run. */
  lemma AnsweredEnds(a: Agent, k: RunMachine.Worker, t: Talk)
    requires k.pc == RunMachine.Asking(1) && Along(a, k) && MayStep(a.config.limits, k.usage)
    requires t.response == Reply(a, Nth(a, |k.steps|))
    requires t.results == Results(a, |k.steps|, t.Uses()) && t.records == Records(a, |k.steps|, t.Uses())
    requires !RunMachine.Answered(k, t.response, t.results, t.records).pc.Committing?
    ensures var k' := RunMachine.Answered(k, t.response, t.results, t.records);
            && k'.pc.Finishing? && k'.steps == k.steps
            && EndsAt(a, |k.steps|, k'.pc.outcome.status, k'.pc.outcome.answer, k'.pc.outcome.error)
  {
    AnsweredLocals(k, t, Nth(a, |k.steps|).saved);
    AnsweredSettles(a, Nth(a, |k.steps|), k, t);
    ReplyEnds(a, |k.steps|, t.response);
  }

  lemma AnsweredInFull(a: Agent, taken: nat, k: RunMachine.Worker, t: Talk)
    requires k.pc.Asking? && OnPath(a, taken, k) && |k.steps| <= taken
    requires t.response == Reply(a, Nth(a, |k.steps|))
    requires t.results == Results(a, |k.steps|, t.Uses()) && t.records == Records(a, |k.steps|, t.Uses())
    ensures OnPath(a, taken, RunMachine.Answered(k, t.response, t.results, t.records))
  {
    if RunMachine.Answered(k, t.response, t.results, t.records).pc.Committing? {
      AnsweredCommits(a, k, t);
    } else {
      AnsweredEnds(a, k, t);
    }
  }

  lemma AnsweredOnPath(a: Agent, taken: nat, k: RunMachine.Worker, t: Talk)
    requires k.pc.Asking? && OnPath(a, taken, k) && |k.steps| <= taken
    requires TalkOk(a, k, t) && t.Answered()
    ensures OnPath(a, taken, RunMachine.Answered(k, t.response, t.results, t.records))
  {
    InFull(a, k, t);
    AnsweredInFull(a, taken, k, t);
  }

  lemma RenewedOnPath(a: Agent, taken: nat, k: RunMachine.Worker, act: RunMachine.Action)
    requires k.pc.Renewing? && Further(a, k, k.pc.step, k.pc.answer) && |k.steps| < taken
    ensures OnPath(a, taken, RunMachine.Logged(RunMachine.AfterRenewal(k), act))
  {
  }

  lemma CommittedOnPath(a: Agent, taken: nat, k: RunMachine.Worker, late: nat, act: RunMachine.Action)
    requires k.pc.Committing? && Further(a, k, k.pc.step, k.pc.answer)
    ensures OnPath(a, taken, RunMachine.Logged(
                             k.(pc := RunMachine.Renewing(k.pc.step, k.pc.answer), lateCommits := late), act))
  {
  }

  // --- Every step --------------------------------------------------------------------

  /** A move of `o` that commits nothing; whoever else there is stands where it stood. */
  lemma MoveStaysOnPath(a: Agent, w: RunMachine.World, v: RunMachine.World, o: Owner)
    requires AllOnPath(a, w)
    requires v.row.steps == w.row.steps && v.batches == w.batches
    requires v.row.status.IsTerminal() ==> EndsAt(a, |w.row.steps|, v.row.status, v.row.answer, v.row.error)
    requires o in v.workers && v.workers == w.workers[o := v.workers[o]] && OnPath(a, |w.row.steps|, v.workers[o])
    ensures AllOnPath(a, v)
  {
    forall p | p in v.workers ensures OnPath(a, |v.row.steps|, v.workers[p]) {
      assert p != o ==> OnPath(a, |w.row.steps|, w.workers[p]);
    }
  }

  /** One more step committed, the next of the path. */
  lemma TablesGrow(a: Agent, row: RunRow, batches: seq<seq<Message>>, k: RunMachine.Worker)
    requires TablesOnPath(a, row, batches) && k.pc.Committing? && OnPath(a, |row.steps|, k) && |k.steps| == |row.steps|
    ensures TablesOnPath(a, Committed(row, k.pc.step, k.pending), batches + [k.pending])
    ensures |row.steps| < |Whole(a).history.steps|
  {
    FurtherWithin(a, k, k.pc.step, k.pc.answer);
    FlattenAppend(batches, k.pending);
  }

  /** A run that has ended where the path ends takes no more steps. */
  lemma GrownOnPath(a: Agent, row: RunRow, batches: seq<seq<Message>>, k: RunMachine.Worker)
    requires RowOnPath(a, row, batches) && k.pc.Committing? && OnPath(a, |row.steps|, k) && |k.steps| == |row.steps|
    ensures RowOnPath(a, Committed(row, k.pc.step, k.pending), batches + [k.pending])
  {
    TablesGrow(a, row, batches, k);
    assert !EndsAt(a, |row.steps|, row.status, row.answer, row.error);
  }

  lemma MoreTaken(a: Agent, taken: nat, more: nat, k: RunMachine.Worker)
    requires OnPath(a, taken, k) && taken <= more
    ensures OnPath(a, more, k)
  {
  }

  /** A commit of `o`: the others stand where they stood, with one more step taken. */
  lemma AcceptStaysOnPath(a: Agent, w: RunMachine.World, v: RunMachine.World, o: Owner)
    requires AllOnPath(a, w) && |v.row.steps| == |w.row.steps| + 1 && RowOnPath(a, v.row, v.batches)
    requires o in v.workers && v.workers == w.workers[o := v.workers[o]] && OnPath(a, |v.row.steps|, v.workers[o])
    ensures AllOnPath(a, v)
  {
    forall p | p in v.workers ensures OnPath(a, |v.row.steps|, v.workers[p]) {
      if p != o { MoreTaken(a, |w.row.steps|, |v.row.steps|, w.workers[p]); }
    }
  }

  lemma CommitterOnPath(a: Agent, w: RunMachine.World, o: Owner, taken: nat)
    requires o in w.workers && w.workers[o].pc.Committing? && OnPath(a, |w.row.steps|, w.workers[o])
    ensures OnPath(a, taken, RunMachine.CommitEffect(w, o).workers[o])
  {
    var k, v := w.workers[o], RunMachine.CommitEffect(w, o);
    RunMachine.CommitFrame(w, o);
    CommittedOnPath(a, taken, k, v.workers[o].lateCommits,
                    RunMachine.TriedCommit(k.pc.step.idx, CommitStep(w.row, k.pc.step, k.pending).Ok?));
  }

  lemma CommitStaysOnPath(a: Agent, w: RunMachine.World, o: Owner)
    requires RunSafety.Inv(a.config, w) && o in w.workers && w.workers[o].pc.Committing? && AllOnPath(a, w)
    ensures AllOnPath(a, RunMachine.CommitEffect(w, o))
  {
    var k, v := w.workers[o], RunMachine.CommitEffect(w, o);
    assert WorkerOk(a.config, |w.row.steps|, k) && OnPath(a, |w.row.steps|, k);
    RefusedIffTaken(a.config, w.row, w.batches, k.pc.step, k.pending);
    RunMachine.CommitFrame(w, o);
    CommitterOnPath(a, w, o, |v.row.steps|);
    if k.pc.step.idx < |w.row.steps| {
      MoveStaysOnPath(a, w, v, o);
    } else {
      GrownOnPath(a, w.row, w.batches, k);
      AcceptStaysOnPath(a, w, v, o);
    }
  }

  lemma FinisherEnds(a: Agent, row: RunRow, batches: seq<seq<Message>>, k: RunMachine.Worker)
    requires TablesOnPath(a, row, batches) && k.pc.Finishing? && OnPath(a, |row.steps|, k)
    ensures EndsAt(a, |row.steps|, k.pc.outcome.status, k.pc.outcome.answer, k.pc.outcome.error)
  {
    RowWithin(a, row, batches);
  }

  lemma FinishStaysOnPath(a: Agent, w: RunMachine.World, o: Owner)
    requires o in w.workers && w.workers[o].pc.Finishing? && AllOnPath(a, w)
    ensures AllOnPath(a, RunMachine.Apply(a.config, w, RunMachine.Finish(o)))
  {
    FinisherEnds(a, w.row, w.batches, w.workers[o]);
    RunMachine.FinishFrame(a.config, w, o);
    MoveStaysOnPath(a, w, RunMachine.Apply(a.config, w, RunMachine.Finish(o)), o);
  }

  lemma RenewerOnPath(a: Agent, w: RunMachine.World, o: Owner)
    requires o in w.workers && w.workers[o].pc.Renewing? && WorkerOk(a.config, |w.row.steps|, w.workers[o])
    requires OnPath(a, |w.row.steps|, w.workers[o])
    ensures OnPath(a, |w.row.steps|, RunMachine.RenewEffect(a.config, w, o).workers[o])
  {
    RenewedOnPath(a, |w.row.steps|, w.workers[o], RunMachine.TriedRenew(true));
    RunMachine.RenewFrame(a.config, w, o);
  }

  lemma RenewStaysOnPath(a: Agent, w: RunMachine.World, o: Owner)
    requires RunSafety.Inv(a.config, w) && o in w.workers && w.workers[o].pc.Renewing? && AllOnPath(a, w)
    ensures AllOnPath(a, RunMachine.RenewEffect(a.config, w, o))
  {
    RenewerOnPath(a, w, o);
    RunMachine.RenewFrame(a.config, w, o);
    MoveStaysOnPath(a, w, RunMachine.RenewEffect(a.config, w, o), o);
  }

  lemma LoadStaysOnPath(a: Agent, w: RunMachine.World, o: Owner)
    requires Transparent(a) && RunSafety.Inv(a.config, w) && AllOnPath(a, w) && Unclosed(w.row)
    requires RunMachine.Enabled(a.config, w, RunMachine.LoadRow(o))
    ensures AllOnPath(a, RunMachine.Apply(a.config, w, RunMachine.LoadRow(o)))
  {
    LoadedOnPath(a, w.row, w.batches, w.workers[o]);
    MoveStaysOnPath(a, w, RunMachine.Apply(a.config, w, RunMachine.LoadRow(o)), o);
  }

  lemma CheckerOnPath(a: Agent, w: RunMachine.World, o: Owner)
    requires RunMachine.At(w, o, RunMachine.Head) && WorkerOk(a.config, |w.row.steps|, w.workers[o])
    requires OnPath(a, |w.row.steps|, w.workers[o])
    ensures var v := RunMachine.Apply(a.config, w, RunMachine.Check(o));
            && v.row == w.row && v.batches == w.batches
            && o in v.workers && v.workers == w.workers[o := v.workers[o]] && OnPath(a, |w.row.steps|, v.workers[o])
  {
    CheckedOnPath(a, |w.row.steps|, w.workers[o]);
    RunMachine.CheckFrame(a.config, w, o);
  }

  lemma CheckStaysOnPath(a: Agent, w: RunMachine.World, o: Owner)
    requires RunSafety.Inv(a.config, w) && AllOnPath(a, w) && RunMachine.Enabled(a.config, w, RunMachine.Check(o))
    ensures AllOnPath(a, RunMachine.Apply(a.config, w, RunMachine.Check(o)))
  {
    CheckerOnPath(a, w, o);
    MoveStaysOnPath(a, w, RunMachine.Apply(a.config, w, RunMachine.Check(o)), o);
  }

  /** Claims, releases and crashes. */
  lemma OthersStayOnPath(a: Agent, w: RunMachine.World, e: RunMachine.Event)
    requires AllOnPath(a, w) && RunMachine.Enabled(a.config, w, e) && (e.Claim? || e.Release? || e.Crash?)
    ensures AllOnPath(a, RunMachine.Apply(a.config, w, e))
  {
    RunMachine.QuietFrame(a.config, w, e);
    MoveStaysOnPath(a, w, RunMachine.Apply(a.config, w, e), e.o);
  }

  /** The load, if the event is one, comes before the final commit. */
  predicate InTime(w: RunMachine.World, e: RunMachine.Event) { e.LoadRow? ==> Unclosed(w.row) }

  lemma StoreStaysOnPath(a: Agent, w: RunMachine.World, e: RunMachine.Event)
    requires Transparent(a) && RunSafety.Inv(a.config, w) && AllOnPath(a, w)
    requires RunMachine.Enabled(a.config, w, e) && Outside(e) && InTime(w, e)
    ensures AllOnPath(a, RunMachine.Apply(a.config, w, e))
  {
    match e
    case Commit(o) => CommitStaysOnPath(a, w, o);
    case Finish(o) => FinishStaysOnPath(a, w, o);
    case Renew(o) => RenewStaysOnPath(a, w, o);
    case LoadRow(o) => LoadStaysOnPath(a, w, o);
    case Check(o) => CheckStaysOnPath(a, w, o);
    case Tick(later) => assert AllOnPath(a, w.(now := later));
    case _ => OthersStayOnPath(a, w, e);
  }

  /** `PathInv`, as a property that steps may keep. */
  ghost function OfPath(a: Agent): World -> bool { (w: World) => PathInv(a, w) }

  lemma StoreKeepsPath(a: Agent, w: World, e: Event)
    requires Transparent(a) && PathInv(a, w) && e.Store? && Enabled(a, w, e) && InTime(w.run, e.e)
    ensures OfPath(a)(Apply(a, w, e))
  {
    InvStep(a.config, w.run, e.e);
    StoreKeepsInside(a, w, e.e);
    StoreStaysOnPath(a, w.run, e.e);
  }

  lemma TurnKeepsPath(a: Agent, w: World, e: Event)
    requires Transparent(a) && PathInv(a, w) && e.Turn? && Enabled(a, w, e)
    ensures OfPath(a)(Apply(a, w, e))
  {
    var k, t, v, n := w.run.workers[e.o], w.talks[e.o], Apply(a, w, e), |w.run.row.steps|;
    assert OnPath(a, n, k) && WorkerOk(a.config, n, k) && TalkOk(a, k, t);
    TurnIsAnswer(a, w, e.o);
    InvStep(a.config, w.run, RunMachine.Answer(e.o, t.response, t.results, t.records));
    AnsweredOnPath(a, n, k, t);
    MoveStaysOnPath(a, w.run, v.run, e.o);
    RunStepsKeepInside(a, w, e);
  }

  lemma TimeUpKeepsPath(a: Agent, w: World, e: Event)
    requires PathInv(a, w) && e.TimeUp? && Enabled(a, w, e)
    ensures OfPath(a)(Apply(a, w, e))
  {
    InvStep(a.config, w.run, RunMachine.GiveUp(e.o, RunMachine.ToolInFlight));
    MoveStaysOnPath(a, w.run, Apply(a, w, e).run, e.o);
    RunStepsKeepInside(a, w, e);
  }

  lemma InsideKeepsPath(a: Agent, w: World, e: Event)
    requires Transparent(a) && PathInv(a, w) && Enabled(a, w, e) && !e.Store? && !e.Turn? && !e.TimeUp?
    ensures OfPath(a)(Apply(a, w, e))
  {
    InsideStep(a, w, e);
  }

  /** No worker loads the row after its final commit. */
  predicate LoadsInTime(a: Agent, w: World, es: seq<Event>)
    requires CanRun(a, w, es)
    decreases |es|
  {
    |es| > 0 ==> (es[0].Store? ==> InTime(w.run, es[0].e)) && LoadsInTime(a, Apply(a, w, es[0]), es[1..])
  }

  ghost predicate KeptInTime(a: Agent, p: World -> bool) {
    forall w, e :: p(w) && Enabled(a, w, e) && (e.Store? ==> InTime(w.run, e.e)) ==> p(Apply(a, w, e))
  }

  lemma {:induction false} PropertyHolds(a: Agent, w: World, es: seq<Event>, p: World -> bool)
    requires p(w) && KeptInTime(a, p) && CanRun(a, w, es) && LoadsInTime(a, w, es)
    ensures p(Run(a, w, es))
    decreases |es|
  {
    if |es| > 0 { PropertyHolds(a, Apply(a, w, es[0]), es[1..], p); }
  }

  lemma StepKeepsPath(a: Agent, w: World, e: Event)
    requires Transparent(a) && PathInv(a, w) && Enabled(a, w, e) && (e.Store? ==> InTime(w.run, e.e))
    ensures OfPath(a)(Apply(a, w, e))
  {
    if e.Store? { StoreKeepsPath(a, w, e); }
    else if e.Turn? { TurnKeepsPath(a, w, e); }
    else if e.TimeUp? { TimeUpKeepsPath(a, w, e); }
    else { InsideKeepsPath(a, w, e); }
  }

  lemma StepsKeepPath(a: Agent)
    requires Transparent(a)
    ensures KeptInTime(a, OfPath(a))
  {
    forall w, e | OfPath(a)(w) && Enabled(a, w, e) && (e.Store? ==> InTime(w.run, e.e))
      ensures OfPath(a)(Apply(a, w, e))
    {
      StepKeepsPath(a, w, e);
    }
  }

  lemma PathHolds(a: Agent, w: World, es: seq<Event>)
    requires Transparent(a) && PathInv(a, w) && CanRun(a, w, es) && LoadsInTime(a, w, es)
    ensures PathInv(a, Run(a, w, es))
  {
    StepsKeepPath(a);
    PropertyHolds(a, w, es, OfPath(a));
    assert OfPath(a)(Run(a, w, es));
  }

  // --- The theorems ------------------------------------------------------------------

  lemma StartsOnPath(a: Agent)
    ensures PathInv(a, Start(a))
  {
    InvStart(a.config);
    assert Kept(Start(a).run.row, Start(a).run.batches) == NOTHING;
  }

  /** The steps a worker has behind it are the uninterrupted run's. */
  predicate Behind(a: Agent, k: RunMachine.Worker) {
    k.pc.Head? || k.pc.Asking? || k.pc.Committing? || k.pc.Renewing? ==> k.steps <= Whole(a).history.steps
  }

  lemma OnPathBehind(a: Agent, taken: nat, k: RunMachine.Worker)
    requires OnPath(a, taken, k)
    ensures Behind(a, k)
  {
    if k.pc.Head? || k.pc.Asking? || k.pc.Committing? || k.pc.Renewing? { PathIsPrefix(a, |k.steps|); }
  }

  /**
   * Overlapping and stale workers included, what is committed is a beginning of the
   * uninterrupted run's history, and so are the steps each live worker has behind it.
   */
  lemma EveryoneIsOnPath(a: Agent, es: seq<Event>)
    requires Transparent(a) && CanRun(a, Start(a), es) && LoadsInTime(a, Start(a), es)
    ensures var w := Run(a, Start(a), es).run;
            && PartOf(Kept(w.row, w.batches), Whole(a).history)
            && forall o | o in w.workers :: Behind(a, w.workers[o])
  {
    StartsOnPath(a);
    PathHolds(a, Start(a), es);
    var w := Run(a, Start(a), es).run;
    RowWithin(a, w.row, w.batches);
    forall o | o in w.workers ensures Behind(a, w.workers[o]) {
      OnPathBehind(a, |w.row.steps|, w.workers[o]);
    }
  }

  /**
   * Any number of workers at once: once the run has ended, its status, answer, error, steps,
   * stored conversation and usage are those of the uninterrupted run, if no worker loaded
   * the row after its final commit.
   */
  lemma OverlapIsInvisible(a: Agent, es: seq<Event>)
    requires Transparent(a) && CanRun(a, Start(a), es) && LoadsInTime(a, Start(a), es)
    requires Run(a, Start(a), es).run.row.status.IsTerminal()
    ensures EndedAs(Run(a, Start(a), es).run.row, Whole(a))
  {
    StartsOnPath(a);
    PathHolds(a, Start(a), es);
    var w := Run(a, Start(a), es).run;
    NthStable(a, |w.row.steps|);
    LoadedAgrees(a.config, w.row, w.batches, RunMachine.NEWCOMER);
    LoadReads(a.config, w.row, w.batches);
    ConversationRoundTrip(Flatten(w.batches));
  }
}
