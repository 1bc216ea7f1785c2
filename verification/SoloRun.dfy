/**
 * A run with one live worker at a time: crashes and resumes in any number, but no two
 * workers at once. Here a worker's locals agree with the store, which is what the
 * conversation and the token budget rest on.
 */
module SoloRun {
  import opened Wrappers
  import opened Messages
  import opened RunState
  import opened RunStore
  import opened RunMachine
  import opened RunSafety

  predicate Alone(w: World) {
    forall o, p | o in w.workers && p in w.workers && !w.workers[o].pc.Stopped? && !w.workers[p].pc.Stopped? ::
      o == p
  }

  /** Every worker but `o` has stopped. */
  predicate Only(w: World, o: Owner) { forall p | p in w.workers && p != o :: w.workers[p].pc.Stopped? }

  /** The provider's blocks are ones the store keeps exactly. */
  predicate Keepable(e: Event) {
    e.Answer? ==> forall b | b in e.response.content :: Stable(b)
  }

  predicate AllKeepable(es: seq<Event>) { forall e | e in es :: Keepable(e) }

  predicate AloneRun(c: Config, w: World, es: seq<Event>)
    requires CanRun(c, w, es)
    decreases |es|
  {
    Alone(w) && (|es| == 0 || AloneRun(c, Apply(c, w, es[0]), es[1..]))
  }

  // --- The live worker's counts are the store's --------------------------------------

  /** Steps and usage, whatever became of the messages. */
  predicate Tallies(row: RunRow, k: Worker) {
    match k.pc
    case Head => k.steps == row.steps && k.usage == UsageOf(row)
    case Asking(_) => k.steps == row.steps && k.usage == UsageOf(row)
    case Charging(_) => k.steps == row.steps && k.usage == UsageOf(row)
    case Committing(step, _) => k.steps == row.steps && k.usage == UsageOf(row).Plus(step.usage)
    case Renewing(step, _) => k.steps + [step] == row.steps && k.usage == UsageOf(row)
    case Finishing(outcome) =>
      outcome.steps == row.steps && (outcome.status.Completed? ==> outcome.usage == UsageOf(row))
    case _ => true
  }

  ghost predicate TallyInv(c: Config, w: World) {
    Inv(c, w) && forall o | o in w.workers :: Tallies(w.row, w.workers[o])
  }

  lemma LoadedTallies(c: Config, row: RunRow, batches: seq<seq<Message>>, k: Worker)
    requires RowOk(c, row, batches)
    ensures Tallies(row, Loaded(c, row, k))
  {
    if Load(row).Ok? { LoadReads(c, row, batches); }
  }

  lemma LocalTallies(c: Config, w: World, e: Event)
    requires RowOk(c, w.row, w.batches) && Enabled(c, w, e) && IsLocal(e) && Tallies(w.row, w.workers[e.o])
    ensures var v := Apply(c, w, e); e.o in v.workers && Tallies(v.row, v.workers[e.o]) && v.row == w.row
  {
    if e.LoadRow? { LoadedTallies(c, w.row, w.batches, w.workers[e.o]); }
  }

  lemma StoreTallies(c: Config, w: World, e: Event)
    requires Enabled(c, w, e) && !IsLocal(e) && !e.Commit? && !e.Tick?
    requires e.o in w.workers ==> Tallies(w.row, w.workers[e.o])
    ensures var v := Apply(c, w, e); e.o in v.workers && Tallies(v.row, v.workers[e.o]) && SameTables(w.row, v.row)
  {
  }

  /** The commit of a worker whose counts are the store's is accepted, and they stay so. */
  lemma CommitTallies(c: Config, row: RunRow, batches: seq<seq<Message>>, k: Worker)
    requires RowOk(c, row, batches) && WorkerOk(c, |row.steps|, k) && k.pc.Committing? && Tallies(row, k)
    ensures var row' := Committed(row, k.pc.step, k.pending);
            && CommitStep(row, k.pc.step, k.pending) == Ok(row')
            && k.steps + [k.pc.step] == row'.steps && k.usage == UsageOf(row')
  {
    RefusedIffTaken(c, row, batches, k.pc.step, k.pending);
    CommitCounts(row, k.pc.step, k.pending);
    SpentAppend(row.steps, k.pc.step);
  }

  lemma OneTallies(w: World, v: World, o: Owner)
    requires forall p | p in w.workers :: Tallies(w.row, w.workers[p])
    requires o in v.workers && v.workers == w.workers[o := v.workers[o]] && Tallies(v.row, v.workers[o])
    requires SameTables(w.row, v.row) || forall p | p in w.workers && p != o :: w.workers[p].pc.Stopped?
    ensures forall p | p in v.workers :: Tallies(v.row, v.workers[p])
  {
    forall p | p in v.workers ensures Tallies(v.row, v.workers[p]) {
      assert p != o ==> Tallies(w.row, w.workers[p]);
    }
  }

  lemma TalliesKeep(c: Config, w: World, e: Event)
    requires TallyInv(c, w) && Alone(w) && Enabled(c, w, e)
    ensures TallyInv(c, Apply(c, w, e))
  {
    var v := Apply(c, w, e);
    InvStep(c, w, e);
    OneMoves(c, w, e);
    if !e.Tick? {
      if e.Commit? { CommitTallies(c, w.row, w.batches, w.workers[e.o]); }
      else if IsLocal(e) { LocalTallies(c, w, e); }
      else { StoreTallies(c, w, e); }
      OneTallies(w, v, e.o);
    }
  }

  // --- The live worker agrees with the store -----------------------------------------

  predicate Agrees(c: Config, row: RunRow, stored: seq<Message>, k: Worker) {
    Tallies(row, k) && Says(stored, k)
  }

  /** Its messages are the stored ones and what is pending. */
  predicate Says(stored: seq<Message>, k: Worker) {
    match k.pc
    case Head => k.messages == stored + k.pending && StableAll(k.pending)
    case Asking(_) => k.messages == stored + k.pending && StableAll(k.pending)
    case Charging(_) => k.messages == stored + k.pending && StableAll(k.pending)
    case Committing(_, _) => k.messages == stored + k.pending && StableAll(k.pending)
    case Renewing(_, _) => k.messages == stored
    case Finishing(outcome) => outcome.status.Completed? ==> outcome.messages == stored
    case _ => true
  }

  predicate InStep(row: RunRow, stored: seq<Message>, k: Worker) {
    k.steps == row.steps && k.usage == UsageOf(row) && k.messages == stored + k.pending && StableAll(k.pending)
  }

  ghost predicate SoloInv(c: Config, w: World) {
    && Inv(c, w)
    && StableAll(Flatten(w.batches))
    && forall o | o in w.workers :: Agrees(c, w.row, Flatten(w.batches), w.workers[o])
  }

  lemma OpeningStable(c: Config)
    ensures StableAll([Opening(c)])
  {
  }

  lemma LoadedAgrees(c: Config, row: RunRow, batches: seq<seq<Message>>, k: Worker)
    requires RowOk(c, row, batches) && StableAll(Flatten(batches))
    ensures Agrees(c, row, Flatten(batches), Loaded(c, row, k)) && Load(row).Ok?
  {
    StepsInOrderAlready(row.steps);
    MessagesInOrderAlready(row.messages);
    ConversationRoundTrip(Flatten(batches));
    LoadReads(c, row, batches);
    OpeningStable(c);
    if row.steps == [] { assert Flatten(batches) == []; }
  }

  lemma ResultsStable(results: seq<Block>)
    requires forall b | b in results :: b.ToolResultBlock?
    ensures StableMessage(Message(User, results))
  {
  }

  lemma AnsweredAgrees(
    c: Config, row: RunRow, stored: seq<Message>, k: Worker,
    r: Response, results: seq<Block>, records: seq<ToolCallRecord>)
    requires Agrees(c, row, stored, k) && k.pc.Asking?
    requires if r.stop.ToolUse? then Answers(r.content, results) else results == []
    requires forall b | b in r.content :: Stable(b)
    ensures Agrees(c, row, stored, Answered(k, r, results, records))
  {
    var turn := [Message(Assistant, r.content)] + if r.stop.ToolUse? then [Message(User, results)] else [];
    ResultsStable(results);
    assert StableAll(turn);
    assert k.messages + turn == stored + (k.pending + turn);
  }

  /** A step of `o` that leaves the tables alone; whoever else there is has stopped. */
  lemma MoveKeepsSolo(c: Config, w: World, v: World, o: Owner)
    requires SoloInv(c, w) && Inv(c, v) && o in v.workers
    requires SameTables(w.row, v.row) && v.batches == w.batches
    requires v.workers == w.workers[o := v.workers[o]]
    requires Agrees(c, w.row, Flatten(w.batches), v.workers[o])
    ensures SoloInv(c, v)
  {
    forall p | p in v.workers ensures Agrees(c, v.row, Flatten(v.batches), v.workers[p]) {
      assert p != o ==> Agrees(c, w.row, Flatten(w.batches), w.workers[p]);
    }
  }

  lemma LocalAgrees(c: Config, w: World, e: Event)
    requires RowOk(c, w.row, w.batches) && StableAll(Flatten(w.batches))
    requires Enabled(c, w, e) && IsLocal(e) && Keepable(e)
    requires Agrees(c, w.row, Flatten(w.batches), w.workers[e.o])
    ensures e.o in Apply(c, w, e).workers
    ensures Agrees(c, w.row, Flatten(w.batches), Apply(c, w, e).workers[e.o])
  {
    var k := w.workers[e.o];
    match e {
      case LoadRow(_) => LoadedAgrees(c, w.row, w.batches, k);
      case Answer(_, r, results, records) => AnsweredAgrees(c, w.row, Flatten(w.batches), k, r, results, records);
      case _ =>
    }
  }

  lemma LocalKeepsSolo(c: Config, w: World, e: Event)
    requires SoloInv(c, w) && Enabled(c, w, e) && IsLocal(e) && Keepable(e)
    ensures SoloInv(c, Apply(c, w, e))
  {
    InvStep(c, w, e);
    LocalAgrees(c, w, e);
    MoveKeepsSolo(c, w, Apply(c, w, e), e.o);
  }

  lemma StableAppend(a: seq<Message>, b: seq<Message>)
    requires StableAll(a) && StableAll(b)
    ensures StableAll(a + b)
  {
  }

  /** The commit of a worker in step with the store is accepted, and it stays in step. */
  lemma CommittedAgrees(c: Config, row: RunRow, batches: seq<seq<Message>>, k: Worker)
    requires RowOk(c, row, batches) && StableAll(Flatten(batches)) && k.pc.Committing?
    requires WorkerOk(c, |row.steps|, k) && Agrees(c, row, Flatten(batches), k)
    ensures var row', stored := Committed(row, k.pc.step, k.pending), Flatten(batches + [k.pending]);
            && CommitStep(row, k.pc.step, k.pending) == Ok(row')
            && StableAll(stored)
            && k.steps + [k.pc.step] == row'.steps && k.usage == UsageOf(row') && k.messages == stored
  {
    CommitTallies(c, row, batches, k);
    FlattenAppend(batches, k.pending);
    StableAppend(Flatten(batches), k.pending);
  }

  lemma CommitKeepsSolo(c: Config, w: World, o: Owner)
    requires o in w.workers && w.workers[o].pc.Committing?
    requires SoloInv(c, w) && Alone(w)
    ensures SoloInv(c, CommitEffect(w, o))
  {
    var k, v := w.workers[o], CommitEffect(w, o);
    assert Enabled(c, w, Commit(o));
    CommitKeepsInv(c, w, o);
    CommittedAgrees(c, w.row, w.batches, k);
    forall p | p in v.workers ensures Agrees(c, v.row, Flatten(v.batches), v.workers[p]) {
      assert p != o ==> w.workers[p].pc.Stopped?;
    }
  }

  lemma RenewedAgrees(c: Config, row: RunRow, stored: seq<Message>, k: Worker)
    requires Agrees(c, row, stored, k) && k.pc.Renewing?
    ensures Agrees(c, row, stored, AfterRenewal(k))
  {
    assert stored + [] == stored;
  }

  lemma RenewMoves(c: Config, w: World, o: Owner)
    requires o in w.workers && w.workers[o].pc.Renewing? && Agrees(c, w.row, Flatten(w.batches), w.workers[o])
    ensures var v := RenewEffect(c, w, o);
            && SameTables(w.row, v.row) && v.batches == w.batches
            && v.workers == w.workers[o := v.workers[o]]
            && Agrees(c, w.row, Flatten(w.batches), v.workers[o])
  {
    RenewedAgrees(c, w.row, Flatten(w.batches), w.workers[o]);
  }

  lemma RenewKeepsSolo(c: Config, w: World, o: Owner)
    requires o in w.workers && w.workers[o].pc.Renewing?
    requires SoloInv(c, w)
    ensures SoloInv(c, RenewEffect(c, w, o))
  {
    InvStep(c, w, Renew(o));
    RenewMoves(c, w, o);
    MoveKeepsSolo(c, w, RenewEffect(c, w, o), o);
  }

  lemma StoreSays(c: Config, w: World, e: Event, stored: seq<Message>)
    requires Enabled(c, w, e) && !IsLocal(e) && !e.Commit? && !e.Renew? && !e.Tick?
    requires e.o in w.workers ==> Says(stored, w.workers[e.o])
    ensures var v := Apply(c, w, e); v.batches == w.batches && e.o in v.workers && Says(stored, v.workers[e.o])
  {
  }

  lemma StoreKeepsSolo(c: Config, w: World, e: Event)
    requires SoloInv(c, w) && Enabled(c, w, e) && !IsLocal(e) && !e.Commit? && !e.Renew?
    ensures SoloInv(c, Apply(c, w, e))
  {
    var v := Apply(c, w, e);
    InvStep(c, w, e);
    OneMoves(c, w, e);
    if e.Tick? {
      assert v.row == w.row && v.batches == w.batches;
    } else {
      assert e.o in w.workers ==> Agrees(c, w.row, Flatten(w.batches), w.workers[e.o]);
      StoreTallies(c, w, e);
      StoreSays(c, w, e, Flatten(w.batches));
      MoveKeepsSolo(c, w, v, e.o);
    }
  }

  lemma SoloStep(c: Config, w: World, e: Event)
    requires SoloInv(c, w) && Alone(w) && Enabled(c, w, e) && Keepable(e)
    ensures SoloInv(c, Apply(c, w, e))
  {
    if e.Commit? { CommitKeepsSolo(c, w, e.o); }
    else if e.Renew? { RenewKeepsSolo(c, w, e.o); }
    else if IsLocal(e) { LocalKeepsSolo(c, w, e); }
    else { StoreKeepsSolo(c, w, e); }
  }

  lemma {:induction false} SoloRunInv(c: Config, w: World, es: seq<Event>)
    requires SoloInv(c, w) && CanRun(c, w, es) && AloneRun(c, w, es) && AllKeepable(es)
    ensures SoloInv(c, Run(c, w, es))
    decreases |es|
  {
    if |es| > 0 {
      assert es[0] in es;
      SoloStep(c, w, es[0]);
      SoloRunInv(c, Apply(c, w, es[0]), es[1..]);
    }
  }

  // --- The token budget --------------------------------------------------------------

  /** The provider honours `max_tokens`. */
  predicate Honours(c: Config, w: World, e: Event)
    requires Enabled(c, w, e)
  {
    e.Answer? ==> e.response.usage.output <= MaxTokensForNextStep(c.limits, w.workers[e.o].usage)
  }

  predicate HonouredRun(c: Config, w: World, es: seq<Event>)
    requires CanRun(c, w, es)
    decreases |es|
  {
    |es| == 0 || (Honours(c, w, es[0]) && HonouredRun(c, Apply(c, w, es[0]), es[1..]))
  }

  predicate WithinBudget(c: Config, row: RunRow) {
    |row.steps| > 0 ==>
      UsageOf(row).Total() <= c.limits.tokenBudget + row.steps[|row.steps| - 1].usage.input
  }

  /** A request in flight was allowed; a step in hand passes the budget by its input at most. */
  predicate Afforded(c: Config, k: Worker) {
    match k.pc
    case Asking(_) => MayStep(c.limits, k.usage)
    case Charging(_) => MayStep(c.limits, k.usage)
    case Committing(step, _) => k.usage.Total() <= c.limits.tokenBudget + step.usage.input
    case _ => true
  }

  predicate BudgetInv(c: Config, w: World) {
    WithinBudget(c, w.row) && forall o | o in w.workers :: Afforded(c, w.workers[o])
  }

  lemma AnsweredAfforded(c: Config, k: Worker, r: Response, results: seq<Block>, records: seq<ToolCallRecord>)
    requires Afforded(c, k) && k.pc.Asking? && r.usage.output <= MaxTokensForNextStep(c.limits, k.usage)
    ensures Afforded(c, Answered(k, r, results, records))
  {
    OvershootIsOneInput(c.limits, k.usage, r.usage);
  }

  lemma BudgetLocal(c: Config, w: World, e: Event)
    requires BudgetInv(c, w) && Enabled(c, w, e) && !e.Commit? && Honours(c, w, e)
    ensures BudgetInv(c, Apply(c, w, e))
  {
    var v := Apply(c, w, e);
    assert SameTables(w.row, v.row);
    if e.Answer? { AnsweredAfforded(c, w.workers[e.o], e.response, e.results, e.records); }
    assert !e.Tick? && e.o in w.workers ==> Afforded(c, w.workers[e.o]);
    assert !e.Tick? ==> Afforded(c, v.workers[e.o]);
  }

  lemma BudgetCommit(c: Config, w: World, o: Owner)
    requires o in w.workers && w.workers[o].pc.Committing?
    requires TallyInv(c, w) && BudgetInv(c, w)
    ensures BudgetInv(c, CommitEffect(w, o))
  {
    var k, v := w.workers[o], CommitEffect(w, o);
    CommitTallies(c, w.row, w.batches, k);
    assert Afforded(c, k);
    assert v.row.steps[|v.row.steps| - 1] == k.pc.step;
  }

  lemma {:induction false} BudgetRun(c: Config, w: World, es: seq<Event>)
    requires TallyInv(c, w) && BudgetInv(c, w)
    requires CanRun(c, w, es) && AloneRun(c, w, es) && HonouredRun(c, w, es)
    ensures BudgetInv(c, Run(c, w, es))
    decreases |es|
  {
    if |es| > 0 {
      TalliesKeep(c, w, es[0]);
      if es[0].Commit? { BudgetCommit(c, w, es[0].o); } else { BudgetLocal(c, w, es[0]); }
      BudgetRun(c, Apply(c, w, es[0]), es[1..]);
    }
  }

  /** Across every resume, what was spent passes the budget by one step's input at most. */
  lemma SpendingStaysWithinBudget(c: Config, es: seq<Event>)
    requires CanRun(c, Start(c), es) && AloneRun(c, Start(c), es) && HonouredRun(c, Start(c), es)
    ensures WithinBudget(c, Run(c, Start(c), es).row)
  {
    BudgetRun(c, Start(c), es);
  }

  // --- The conversation --------------------------------------------------------------

  /** What a request must look like: the opening, then each tool turn with its results. */
  ghost predicate WellFormedRequest(c: Config, ms: seq<Message>) {
    && |ms| % 2 == 1
    && ms[0] == Message(User, [TextBlock(c.query)])
    && (forall i :: 0 <= i < |ms| ==> (ms[i].role.User? <==> i % 2 == 0))
    && (forall i :: 0 <= i < |ms| - 1 && i % 2 == 1 ==>
          IsResults(ms[i + 1]) && Answers(ms[i].content, ms[i + 1].content))
  }

  ghost predicate Numbered(c: Config, steps: seq<StepRecord>, batches: seq<seq<Message>>) {
    |steps| == |batches|
    && forall i :: 0 <= i < |steps| ==> steps[i].idx == i && BatchOk(c, steps[i], batches[i])
  }

  /** One more batch on a conversation keeps the request well formed just if it is a tool turn. */
  lemma OneMoreBatch(c: Config, before: seq<Message>, step: StepRecord, turn: seq<Message>)
    requires TurnOk(step, turn) && |before| > 0
    ensures WellFormedRequest(c, before + turn) <==> WellFormedRequest(c, before) && step.stop.ToolUse?
  {
    var all := before + turn;
    assert forall i :: 0 <= i < |before| ==> all[i] == before[i];
    assert all[|before|] == turn[0];
    if step.stop.ToolUse? {
      assert all[|before| + 1] == turn[1];
      if WellFormedRequest(c, before) {
        forall i | 0 <= i < |all| - 1 && i % 2 == 1
          ensures IsResults(all[i + 1]) && Answers(all[i].content, all[i + 1].content)
        {
          if i < |before| - 1 { assert all[i] == before[i] && all[i + 1] == before[i + 1]; }
        }
      }
      if WellFormedRequest(c, all) {
        forall i | 0 <= i < |before| - 1 && i % 2 == 1
          ensures IsResults(before[i + 1]) && Answers(before[i].content, before[i + 1].content)
        {
          assert all[i] == before[i] && all[i + 1] == before[i + 1];
        }
      }
    }
  }

  lemma {:induction false} ConversationShape(c: Config, steps: seq<StepRecord>, batches: seq<seq<Message>>)
    requires Numbered(c, steps, batches) && |steps| > 0
    ensures |Flatten(batches)| > 0
    ensures WellFormedRequest(c, Flatten(batches)) <==> forall s | s in steps :: s.stop.ToolUse?
  {
    var n := |steps| - 1;
    assert steps == steps[..n] + [steps[n]];
    if n == 0 {
      FirstBatch(c, steps[0], batches[0]);
      assert Flatten(batches) == batches[0];
    } else {
      ConversationShape(c, steps[..n], batches[..n]);
      assert BatchOk(c, steps[n], batches[n]) && batches[n][0..] == batches[n];
      OneMoreBatch(c, Flatten(batches[..n]), steps[n], batches[n]);
    }
  }

  lemma FirstBatch(c: Config, step: StepRecord, batch: seq<Message>)
    requires step.idx == 0 && BatchOk(c, step, batch)
    ensures WellFormedRequest(c, batch) <==> step.stop.ToolUse?
  {
    assert batch == [Opening(c)] + batch[1..];
    OneMoreBatch(c, [Opening(c)], step, batch[1..]);
  }

  /**
   * With one live worker, what is sent is what is stored plus what is pending; and it is a
   * well-formed request exactly when every step committed so far was a tool turn. (A run
   * resumed after its final step was committed but not finished is the other case.)
   */
  lemma RequestsAreWellFormed(c: Config, es: seq<Event>, o: Owner)
    requires CanRun(c, Start(c), es) && AloneRun(c, Start(c), es) && AllKeepable(es)
    requires o in Run(c, Start(c), es).workers && Run(c, Start(c), es).workers[o].pc.Asking?
    ensures var w := Run(c, Start(c), es);
            var k := w.workers[o];
            && k.messages == Flatten(w.batches) + k.pending
            && k.pending == Unsaved(c, |w.row.steps|)
            && (WellFormedRequest(c, k.messages) <==> forall s | s in w.row.steps :: s.stop.ToolUse?)
  {
    SoloRunInv(c, Start(c), es);
    var w := Run(c, Start(c), es);
    assert WorkerOk(c, |w.row.steps|, w.workers[o]) && Agrees(c, w.row, Flatten(w.batches), w.workers[o]);
    RequestOf(c, w.row, w.batches, w.workers[o]);
  }

  lemma RequestOf(c: Config, row: RunRow, batches: seq<seq<Message>>, k: Worker)
    requires RowOk(c, row, batches) && InStep(row, Flatten(batches), k) && k.pending == Unsaved(c, |k.steps|)
    ensures WellFormedRequest(c, k.messages) <==> forall s | s in row.steps :: s.stop.ToolUse?
  {
    if |row.steps| == 0 {
      assert Flatten(batches) == [] && k.messages == [Opening(c)];
    } else {
      assert k.messages == Flatten(batches);
      ConversationShape(c, row.steps, batches);
    }
  }
}
