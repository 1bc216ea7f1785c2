/**
 * One worker on the path of the uninterrupted run, as `RunMachine` steps it: if its answers
 * are the agent's and no retry is charged, then whatever else it does, the rows and its own
 * place stay on the path. Other workers stand still here; in `Overlap` they move.
 */
module SoloPath {
  import opened Wrappers
  import opened Messages
  import opened RunState
  import opened RunStore
  import RunMachine
  import opened RunSafety
  import opened SoloRun
  import LoopTrace
  import DurableRun
  import opened CrashTransparency
  import opened Overlap

  // --- What the worker says ----------------------------------------------------------

  /** The model's answer, with what the tools always do. */
  predicate AsAgent(a: DurableRun.Agent, s: LoopTrace.Said) {
    var uses := if s.response.stop.ToolUse? then ToolUses(s.response.content) else [];
    && s.response == a.model(s.messages, MaxTokensForNextStep(a.config.limits, s.usage))
    && s.results == Results(a, s.stepIdx, uses) && s.records == Records(a, s.stepIdx, uses)
  }

  ghost predicate SpeaksFor(a: DurableRun.Agent, d: LoopTrace.Driver) {
    d.c == a.config && forall s :: d.says(s) ==> AsAgent(a, s)
  }

  // --- One worker's path -------------------------------------------------------------

  /** A tool stopped the run: a row under review, or a handler that raised. */
  predicate Troubled(error: Option<ErrorCode>) { error == Some(NeedsReview) || error == Some(ToolFailed) }

  /** As the uninterrupted run ends, or because of a tool. */
  predicate EndedWell(a: DurableRun.Agent, row: RunRow) {
    Troubled(row.error) || EndsAt(a, |row.steps|, row.status, row.answer, row.error)
  }

  predicate Placed(a: DurableRun.Agent, taken: nat, k: RunMachine.Worker) {
    (k.pc.Finishing? && Troubled(k.pc.outcome.error)) || OnPath(a, taken, k)
  }

  /** The worker has not loaded the row yet. */
  predicate Yet(w: RunMachine.World, o: Owner) { o in w.workers ==> w.workers[o].pc.Loading? }

  predicate OwnPath(a: DurableRun.Agent, o: Owner, w: RunMachine.World) {
    && TablesOnPath(a, w.row, w.batches)
    && (w.row.status.IsTerminal() ==> EndedWell(a, w.row))
    && (o in w.workers ==> Placed(a, |w.row.steps|, w.workers[o]))
    && (Yet(w, o) ==> Unclosed(w.row))
  }

  /** As long as no retry has been charged, the worker's own moves stay on the path. */
  ghost predicate Untried(a: DurableRun.Agent, o: Owner, w: RunMachine.World) {
    RunSafety.Inv(a.config, w) && (w.row.retriesUsed == 0 ==> OwnPath(a, o, w))
  }

  /** A move that commits nothing. */
  lemma MoveStays(a: DurableRun.Agent, o: Owner, w: RunMachine.World, v: RunMachine.World)
    requires OwnPath(a, o, w) && v.row.steps == w.row.steps && v.batches == w.batches
    requires v.row.status.IsTerminal() ==> EndedWell(a, v.row)
    requires o in v.workers ==> Placed(a, |w.row.steps|, v.workers[o])
    requires Yet(v, o) ==> Yet(w, o)
    ensures OwnPath(a, o, v)
  {
  }

  lemma InPlace(a: DurableRun.Agent, taken: nat, k: RunMachine.Worker)
    requires Placed(a, taken, k) && !k.pc.Finishing?
    ensures OnPath(a, taken, k)
  {
  }

  /** One more step of the path: a run that has ended there takes no more. */
  lemma AcceptedStays(a: DurableRun.Agent, o: Owner, w: RunMachine.World, v: RunMachine.World)
    requires OwnPath(a, o, w) && o in w.workers && w.workers[o].pc.Committing?
    requires OnPath(a, |w.row.steps|, w.workers[o]) && |w.workers[o].steps| == |w.row.steps|
    requires v.row == Committed(w.row, w.workers[o].pc.step, w.workers[o].pending)
    requires v.batches == w.batches + [w.workers[o].pending]
    requires o in v.workers && !v.workers[o].pc.Loading? && OnPath(a, |v.row.steps|, v.workers[o])
    ensures OwnPath(a, o, v)
  {
    TablesGrow(a, w.row, w.batches, w.workers[o]);
    assert !EndsAt(a, |w.row.steps|, w.row.status, w.row.answer, w.row.error);
  }

  lemma CommitStays(a: DurableRun.Agent, o: Owner, w: RunMachine.World)
    requires RunSafety.Inv(a.config, w) && OwnPath(a, o, w) && o in w.workers && w.workers[o].pc.Committing?
    ensures OwnPath(a, o, RunMachine.CommitEffect(w, o))
  {
    var k, v := w.workers[o], RunMachine.CommitEffect(w, o);
    InPlace(a, |w.row.steps|, k);
    assert WorkerOk(a.config, |w.row.steps|, k);
    RefusedIffTaken(a.config, w.row, w.batches, k.pc.step, k.pending);
    RunMachine.CommitFrame(w, o);
    CommitterOnPath(a, w, o, |v.row.steps|);
    if k.pc.step.idx < |w.row.steps| { MoveStays(a, o, w, v); } else { AcceptedStays(a, o, w, v); }
  }

  lemma RenewStays(a: DurableRun.Agent, o: Owner, w: RunMachine.World)
    requires RunSafety.Inv(a.config, w) && OwnPath(a, o, w) && o in w.workers && w.workers[o].pc.Renewing?
    ensures OwnPath(a, o, RunMachine.RenewEffect(a.config, w, o))
  {
    InPlace(a, |w.row.steps|, w.workers[o]);
    RenewerOnPath(a, w, o);
    RunMachine.RenewFrame(a.config, w, o);
    MoveStays(a, o, w, RunMachine.RenewEffect(a.config, w, o));
  }

  /** Where nothing is asked of a worker. */
  predicate Idle(pc: RunMachine.Pc) {
    || pc.Loading? || pc.Stopped? || pc.Pausing? || pc.Charging?
    || (pc.Finishing? && Troubled(pc.outcome.error))
  }

  lemma IdleIsPlaced(a: DurableRun.Agent, taken: nat, k: RunMachine.Worker)
    requires Idle(k.pc)
    ensures Placed(a, taken, k)
  {
  }

  /** What is written at the end is the path's end, or the tool's doing. */
  lemma FinishedWell(a: DurableRun.Agent, row: RunRow, batches: seq<seq<Message>>, k: RunMachine.Worker)
    requires TablesOnPath(a, row, batches) && k.pc.Finishing? && Placed(a, |row.steps|, k)
    ensures EndedWell(a, RunStore.Finish(row, k.pc.outcome))
  {
    if !Troubled(k.pc.outcome.error) { FinisherEnds(a, row, batches, k); }
  }

  lemma FinishStays(a: DurableRun.Agent, o: Owner, w: RunMachine.World)
    requires OwnPath(a, o, w) && o in w.workers && w.workers[o].pc.Finishing?
    ensures OwnPath(a, o, RunMachine.Apply(a.config, w, RunMachine.Finish(o)))
  {
    var v := RunMachine.Apply(a.config, w, RunMachine.Finish(o));
    FinishedWell(a, w.row, w.batches, w.workers[o]);
    RunMachine.FinishFrame(a.config, w, o);
    IdleIsPlaced(a, |w.row.steps|, v.workers[o]);
    MoveStays(a, o, w, v);
  }

  lemma LoadStays(a: DurableRun.Agent, o: Owner, w: RunMachine.World)
    requires Transparent(a) && RunSafety.Inv(a.config, w) && OwnPath(a, o, w)
    requires RunMachine.At(w, o, RunMachine.Loading)
    ensures OwnPath(a, o, RunMachine.Apply(a.config, w, RunMachine.LoadRow(o)))
  {
    LoadedOnPath(a, w.row, w.batches, w.workers[o]);
    MoveStays(a, o, w, RunMachine.Apply(a.config, w, RunMachine.LoadRow(o)));
  }

  lemma CheckStays(a: DurableRun.Agent, o: Owner, w: RunMachine.World)
    requires RunSafety.Inv(a.config, w) && OwnPath(a, o, w) && RunMachine.At(w, o, RunMachine.Head)
    ensures OwnPath(a, o, RunMachine.Apply(a.config, w, RunMachine.Check(o)))
  {
    InPlace(a, |w.row.steps|, w.workers[o]);
    CheckerOnPath(a, w, o);
    MoveStays(a, o, w, RunMachine.Apply(a.config, w, RunMachine.Check(o)));
  }

  /** A response as the agent's, taken in. */
  lemma AnswererOnPath(
    a: DurableRun.Agent, taken: nat, k: RunMachine.Worker, r: Response, results: seq<Block>, records: seq<ToolCallRecord>)
    requires k.pc.Asking? && |k.steps| <= taken && OnPath(a, taken, k)
    requires AsAgent(a, LoopTrace.Saying(k, r, results, records))
    ensures OnPath(a, taken, RunMachine.Answered(k, r, results, records))
  {
    AnsweredInFull(a, taken, k, DurableRun.Talk(r, results, records, DurableRun.Idle));
  }

  lemma AnswerFrame(c: RunMachine.Config, w: RunMachine.World, e: RunMachine.Event)
    requires e.Answer? && RunMachine.Enabled(c, w, e)
    ensures var v := RunMachine.Apply(c, w, e);
            && v == w.(workers := v.workers) && e.o in v.workers
            && v.workers[e.o] == RunMachine.Answered(w.workers[e.o], e.response, e.results, e.records)
            && !v.workers[e.o].pc.Loading?
  {
  }

  lemma AnswerStays(a: DurableRun.Agent, o: Owner, w: RunMachine.World, e: RunMachine.Event)
    requires RunSafety.Inv(a.config, w) && OwnPath(a, o, w) && e.Answer? && e.o == o
    requires RunMachine.Enabled(a.config, w, e)
    requires AsAgent(a, LoopTrace.Saying(w.workers[o], e.response, e.results, e.records))
    ensures OwnPath(a, o, RunMachine.Apply(a.config, w, e))
  {
    InPlace(a, |w.row.steps|, w.workers[o]);
    assert WorkerOk(a.config, |w.row.steps|, w.workers[o]);
    AnswererOnPath(a, |w.row.steps|, w.workers[o], e.response, e.results, e.records);
    AnswerFrame(a.config, w, e);
    MoveStays(a, o, w, RunMachine.Apply(a.config, w, e));
  }

  /** A failed attempt, or one given up: the worker pauses, charges, or fails the run over a tool. */
  lemma AttemptFrame(c: RunMachine.Config, w: RunMachine.World, e: RunMachine.Event)
    requires (e.Fail? || e.GiveUp?) && RunMachine.Enabled(c, w, e)
    ensures var v := RunMachine.Apply(c, w, e);
            && v == w.(workers := v.workers) && e.o in v.workers
            && var pc := v.workers[e.o].pc;
               pc.Pausing? || pc.Charging? || (pc.Finishing? && Troubled(pc.outcome.error))
  {
  }

  lemma LeaseIsNoMatter(a: DurableRun.Agent, row: RunRow, lease: Option<Lease>)
    ensures EndedWell(a, row.(lease := lease)) <==> EndedWell(a, row)
  {
  }

  /** A move of the worker to where nothing is asked of it, the rows as they were but for the lease. */
  lemma IdleStays(a: DurableRun.Agent, o: Owner, w: RunMachine.World, v: RunMachine.World)
    requires OwnPath(a, o, w) && v.row.steps == w.row.steps && v.batches == w.batches
    requires v.row.status.IsTerminal() ==> v.row == w.row.(lease := v.row.lease)
    requires o in v.workers && Idle(v.workers[o].pc) && (v.workers[o].pc.Loading? ==> Yet(w, o))
    ensures OwnPath(a, o, v)
  {
    IdleIsPlaced(a, |w.row.steps|, v.workers[o]);
    LeaseIsNoMatter(a, w.row, v.row.lease);
    MoveStays(a, o, w, v);
  }

  lemma AttemptStays(a: DurableRun.Agent, o: Owner, w: RunMachine.World, e: RunMachine.Event)
    requires OwnPath(a, o, w) && (e.Fail? || e.GiveUp?) && e.o == o && RunMachine.Enabled(a.config, w, e)
    ensures OwnPath(a, o, RunMachine.Apply(a.config, w, e))
  {
    AttemptFrame(a.config, w, e);
    IdleStays(a, o, w, RunMachine.Apply(a.config, w, e));
  }

  lemma QuietStays(a: DurableRun.Agent, o: Owner, w: RunMachine.World, e: RunMachine.Event)
    requires OwnPath(a, o, w) && (e.Claim? || e.Release? || e.Crash?) && e.o == o
    requires RunMachine.Enabled(a.config, w, e)
    ensures OwnPath(a, o, RunMachine.Apply(a.config, w, e))
  {
    RunMachine.QuietFrame(a.config, w, e);
    IdleStays(a, o, w, RunMachine.Apply(a.config, w, e));
  }

  /** Nothing charges a retry but a charge, and nothing takes one back. */
  lemma RetriesGrow(c: RunMachine.Config, w: RunMachine.World, e: RunMachine.Event)
    requires RunMachine.Enabled(c, w, e)
    ensures RunMachine.Apply(c, w, e).row.retriesUsed >= w.row.retriesUsed + if e.Charge? then 1 else 0
  {
  }

  /** `OwnPath`, as a property of states. */
  function OnOwnPath(a: DurableRun.Agent, o: Owner): RunMachine.World -> bool {
    (w: RunMachine.World) => OwnPath(a, o, w)
  }

  lemma StoreStays(a: DurableRun.Agent, o: Owner, w: RunMachine.World, e: RunMachine.Event)
    requires Transparent(a) && RunSafety.Inv(a.config, w) && OwnPath(a, o, w)
    requires RunMachine.Enabled(a.config, w, e) && (e.Commit? || e.Renew? || e.Finish? || e.LoadRow?) && e.o == o
    ensures OnOwnPath(a, o)(RunMachine.Apply(a.config, w, e))
  {
    if e.Commit? { CommitStays(a, o, w); }
    else if e.Renew? { RenewStays(a, o, w); }
    else if e.Finish? { FinishStays(a, o, w); }
    else { LoadStays(a, o, w); }
  }

  lemma OwnStays(a: DurableRun.Agent, d: LoopTrace.Driver, w: RunMachine.World, e: RunMachine.Event)
    requires Transparent(a) && SpeaksFor(a, d) && RunSafety.Inv(a.config, w) && OwnPath(a, d.o, w)
    requires RunMachine.Enabled(a.config, w, e) && LoopTrace.Own(d, w, e) && !e.Charge?
    ensures OnOwnPath(a, d.o)(RunMachine.Apply(a.config, w, e))
  {
    if e.Tick? { assert OwnPath(a, d.o, w.(now := e.later)); }
    else if e.Check? { CheckStays(a, d.o, w); }
    else if e.Answer? { AnswerStays(a, d.o, w, e); }
    else if e.Fail? || e.GiveUp? { AttemptStays(a, d.o, w, e); }
    else if e.Claim? || e.Release? || e.Crash? { QuietStays(a, d.o, w, e); }
    else { StoreStays(a, d.o, w, e); }
  }

  /** `Untried`, as a property that a worker's moves may keep. */
  ghost function OfPath(a: DurableRun.Agent, o: Owner): RunMachine.World -> bool {
    (w: RunMachine.World) => Untried(a, o, w)
  }

  lemma OwnStepStays(a: DurableRun.Agent, d: LoopTrace.Driver, w: RunMachine.World, e: RunMachine.Event)
    requires Transparent(a) && SpeaksFor(a, d) && Untried(a, d.o, w)
    requires RunMachine.Enabled(a.config, w, e) && LoopTrace.Own(d, w, e)
    ensures OfPath(a, d.o)(RunMachine.Apply(a.config, w, e))
  {
    InvStep(a.config, w, e);
    RetriesGrow(a.config, w, e);
    if w.row.retriesUsed == 0 && !e.Charge? { OwnStays(a, d, w, e); }
  }

  /** Wherever the worker's moves lead, no retry charged, it is still on the path. */
  lemma StaysOnOwnPath(a: DurableRun.Agent, d: LoopTrace.Driver, w: RunMachine.World, v: RunMachine.World)
    requires Transparent(a) && SpeaksFor(a, d) && Untried(a, d.o, w) && LoopTrace.Follows(d, w, v)
    ensures Untried(a, d.o, v)
  {
    var p := OfPath(a, d.o);
    assert LoopTrace.KeptBy(d, p) by {
      forall u, e | p(u) && RunMachine.Enabled(d.c, u, e) && LoopTrace.Own(d, u, e)
        ensures p(RunMachine.Apply(d.c, u, e))
      {
        OwnStepStays(a, d, u, e);
      }
    }
    assert p(w);
  }

  /** A run that has ended, no retry charged and no tool to blame, has ended as it should. */
  lemma UntriedEndsAsWhole(a: DurableRun.Agent, o: Owner, w: RunMachine.World)
    requires Transparent(a) && Untried(a, o, w) && w.row.retriesUsed == 0
    requires w.row.status.IsTerminal() && !Troubled(w.row.error)
    ensures EndedAs(w.row, Whole(a))
  {
    NthStable(a, |w.row.steps|);
    LoadedAgrees(a.config, w.row, w.batches, RunMachine.NEWCOMER);
    LoadReads(a.config, w.row, w.batches);
    ConversationRoundTrip(Flatten(w.batches));
  }
}
