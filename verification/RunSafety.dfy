/**
 * What holds of a run in every reachable state, for any number of workers, stale ones
 * included.
 */
module RunSafety {
  import opened Wrappers
  import opened Messages
  import opened RunState
  import opened RunStore
  import opened Retry
  import opened RunMachine

  // --- The stored rows ---------------------------------------------------------------

  /** The counters a sequence of committed steps adds up to. */
  function Spent(steps: seq<StepRecord>): RunUsage {
    if |steps| == 0 then RunUsage(0, 0, 0, 0)
    else Spent(steps[..|steps| - 1]).Plus(steps[|steps| - 1].usage)
  }

  function Flatten(batches: seq<seq<Message>>): seq<Message> {
    if |batches| == 0 then [] else Flatten(batches[..|batches| - 1]) + batches[|batches| - 1]
  }

  /** The opening message belongs to the first step's batch and to no other. */
  function Unsaved(c: Config, taken: nat): seq<Message> {
    if taken == 0 then [Opening(c)] else []
  }

  predicate IsResults(m: Message) {
    m.role.User? && |m.content| > 0 && forall b | b in m.content :: b.ToolResultBlock?
  }

  /** An assistant turn, followed by one message answering each of its calls if it has any. */
  ghost predicate TurnOk(step: StepRecord, turn: seq<Message>) {
    match step.stop
    case ToolUse =>
      |turn| == 2 && turn[0].role.Assistant? && IsResults(turn[1]) && Answers(turn[0].content, turn[1].content)
    case EndTurn => |turn| == 1 && turn[0].role.Assistant?
    case StopSequence => |turn| == 1 && turn[0].role.Assistant?
    case _ => false
  }

  ghost predicate BatchOk(c: Config, step: StepRecord, batch: seq<Message>) {
    var k := |Unsaved(c, step.idx)|;
    k <= |batch| && batch[..k] == Unsaved(c, step.idx) && TurnOk(step, batch[k..])
  }

  ghost predicate RowOk(c: Config, row: RunRow, batches: seq<seq<Message>>) {
    && row.limits == c.requested.AsStored()
    && |batches| == |row.steps|
    && (|row.steps| > 0 ==> |row.steps| <= c.limits.maxSteps)
    && (forall i :: 0 <= i < |row.steps| ==> row.steps[i].idx == i && BatchOk(c, row.steps[i], batches[i]))
    && (forall i :: 0 <= i < |row.messages| ==> row.messages[i].idx == i)
    && WireOf(row.messages) == AllToWire(Flatten(batches))
    && UsageOf(row) == Spent(row.steps)
  }

  /** The columns `RowOk` speaks of. */
  predicate SameTables(a: RunRow, b: RunRow) {
    && a.limits == b.limits && a.steps == b.steps && a.messages == b.messages
    && UsageOf(a) == UsageOf(b)
  }

  lemma SpentAppend(steps: seq<StepRecord>, s: StepRecord)
    ensures Spent(steps + [s]) == Spent(steps).Plus(s.usage)
  {
    assert (steps + [s])[..|steps|] == steps;
  }

  lemma {:induction false} SpentSteps(steps: seq<StepRecord>)
    ensures Spent(steps).steps == |steps|
  {
    if |steps| > 0 { SpentSteps(steps[..|steps| - 1]); }
  }

  lemma FlattenAppend(batches: seq<seq<Message>>, b: seq<Message>)
    ensures Flatten(batches + [b]) == Flatten(batches) + b
  {
    assert (batches + [b])[..|batches|] == batches;
  }

  lemma {:induction false} FlattenLength(batches: seq<seq<Message>>)
    requires forall b | b in batches :: |b| > 0
    ensures |Flatten(batches)| >= |batches|
  {
    if |batches| > 0 {
      FlattenLength(batches[..|batches| - 1]);
      assert batches[|batches| - 1] in batches;
    }
  }

  /** A commit is refused for one reason only: the step is there already. */
  lemma RefusedIffTaken(c: Config, row: RunRow, batches: seq<seq<Message>>, step: StepRecord, ms: seq<Message>)
    requires RowOk(c, row, batches)
    ensures CommitRefused(row, step, ms) <==> step.idx < |row.steps|
  {
    assert step.idx < |row.steps| ==> row.steps[step.idx].idx == step.idx;
  }

  lemma CommitCounts(row: RunRow, step: StepRecord, ms: seq<Message>)
    requires UsageOf(row) == Spent(row.steps) && step.idx == |row.steps|
    ensures UsageOf(Committed(row, step, ms)) == Spent(row.steps + [step])
  {
    SpentAppend(row.steps, step);
    SpentSteps(row.steps);
  }

  lemma CommitKeepsRow(c: Config, row: RunRow, batches: seq<seq<Message>>, step: StepRecord, ms: seq<Message>)
    requires RowOk(c, row, batches) && BatchOk(c, step, ms)
    requires step.idx <= |row.steps| && step.idx < c.limits.maxSteps
    ensures CommitStep(row, step, ms).Ok? ==>
              RowOk(c, CommitStep(row, step, ms).value, batches + [ms])
              && |CommitStep(row, step, ms).value.steps| == |row.steps| + 1
    ensures CommitStep(row, step, ms).Err? ==> step.idx < |row.steps|
  {
    RefusedIffTaken(c, row, batches, step, ms);
    if !CommitRefused(row, step, ms) {
      var row' := Committed(row, step, ms);
      CommitCounts(row, step, ms);
      FlattenAppend(batches, ms);
      AllToWireAppend(Flatten(batches), ms);
      var added := MessageRows(ms, |row.messages|, step.idx);
      assert WireOf(row'.messages) == WireOf(row.messages) + WireOf(added);
      assert WireOf(added) == AllToWire(ms);
    }
  }

  // --- The workers' locals -----------------------------------------------------------

  /** What a worker's locals have to do with a run that has `n` committed steps. */
  ghost predicate WorkerOk(c: Config, n: nat, k: Worker) {
    match k.pc
    case Head => LocalsOk(c, n, k)
    case Asking(_) => LocalsOk(c, n, k) && |k.steps| < c.limits.maxSteps
    case Charging(_) => LocalsOk(c, n, k) && |k.steps| < c.limits.maxSteps
    case Committing(step, answer) =>
      && step.idx == |k.steps| <= n && |k.steps| < c.limits.maxSteps
      && k.usage.steps == |k.steps| + 1
      && BatchOk(c, step, k.pending)
      && (answer.None? <==> step.stop.ToolUse?)
    case Renewing(step, answer) =>
      && step.idx == |k.steps| < n
      && k.usage.steps == |k.steps| + 1
      && (answer.None? <==> step.stop.ToolUse?)
    case _ => true
  }

  predicate LocalsOk(c: Config, n: nat, k: Worker) {
    |k.steps| <= n && k.usage.steps == |k.steps| && k.pending == Unsaved(c, |k.steps|)
  }

  lemma {:induction false} ReadLength(ws: seq<WireMessage>)
    requires AllFromWire(ws).Ok?
    ensures |AllFromWire(ws).value| == |ws|
  {
    if |ws| > 0 { ReadLength(ws[1..]); }
  }

  /** What `load` gives back of rows in this shape. */
  lemma LoadReads(c: Config, row: RunRow, batches: seq<seq<Message>>)
    requires RowOk(c, row, batches) && Load(row).Ok?
    ensures Load(row).value.steps == row.steps && Load(row).value.usage == Spent(row.steps)
    ensures Load(row).value.messages == [] <==> row.steps == []
    ensures AllFromWire(AllToWire(Flatten(batches))) == Ok(Load(row).value.messages)
  {
    StepsInOrderAlready(row.steps);
    MessagesInOrderAlready(row.messages);
    ReadLength(WireOf(row.messages));
    forall b | b in batches ensures |b| > 0 {
      var i :| 0 <= i < |batches| && batches[i] == b;
      assert BatchOk(c, row.steps[i], batches[i]);
    }
    FlattenLength(batches);
  }

  lemma LoadedOk(c: Config, row: RunRow, batches: seq<seq<Message>>, k: Worker)
    requires RowOk(c, row, batches)
    ensures WorkerOk(c, |row.steps|, Loaded(c, row, k))
  {
    if Load(row).Ok? {
      LoadReads(c, row, batches);
      SpentSteps(row.steps);
    }
  }

  lemma AnsweredOk(
    c: Config, n: nat, k: Worker, r: Response, results: seq<Block>, records: seq<ToolCallRecord>)
    requires WorkerOk(c, n, k) && k.pc.Asking?
    requires if r.stop.ToolUse? then Answers(r.content, results) else results == []
    requires |records| == |results|
    ensures WorkerOk(c, n, Answered(k, r, results, records))
  {
    var k' := Answered(k, r, results, records);
    if k'.pc.Committing? {
      var before := Unsaved(c, |k.steps|);
      var turn := [Message(Assistant, r.content)] + if r.stop.ToolUse? then [Message(User, results)] else [];
      assert k'.pending == before + turn;
      assert k'.pending[..|before|] == before && k'.pending[|before|..] == turn;
    }
  }

  // --- Every step keeps both ---------------------------------------------------------

  ghost predicate Inv(c: Config, w: World) {
    && RowOk(c, w.row, w.batches)
    && forall o | o in w.workers :: WorkerOk(c, |w.row.steps|, w.workers[o])
  }

  lemma InvStart(c: Config)
    ensures Inv(c, Start(c))
  {
  }

  /** Steps that leave the tables alone and move one worker. */
  lemma MoveKeepsInv(c: Config, w: World, v: World, o: Owner)
    requires Inv(c, w) && o in v.workers
    requires SameTables(w.row, v.row) && v.batches == w.batches
    requires v.workers == w.workers[o := v.workers[o]] && WorkerOk(c, |w.row.steps|, v.workers[o])
    ensures Inv(c, v)
  {
  }

  lemma CommitKeepsInv(c: Config, w: World, o: Owner)
    requires Inv(c, w) && Enabled(c, w, Commit(o))
    ensures Inv(c, CommitEffect(w, o))
  {
    var k := w.workers[o];
    assert WorkerOk(c, |w.row.steps|, k);
    CommitKeepsRow(c, w.row, w.batches, k.pc.step, k.pending);
    var v := CommitEffect(w, o);
    forall p | p in v.workers ensures WorkerOk(c, |v.row.steps|, v.workers[p]) {
      if p != o { assert WorkerOk(c, |w.row.steps|, w.workers[p]); }
    }
  }

  predicate IsLocal(e: Event) {
    e.LoadRow? || e.Check? || e.Answer? || e.Fail? || e.GiveUp? || e.Crash?
  }

  lemma LocalKeepsInv(c: Config, w: World, e: Event)
    requires Inv(c, w) && Enabled(c, w, e) && IsLocal(e)
    ensures Inv(c, Apply(c, w, e))
  {
    var k, v := w.workers[e.o], Apply(c, w, e);
    assert WorkerOk(c, |w.row.steps|, k);
    match e {
      case LoadRow(_) => LoadedOk(c, w.row, w.batches, k);
      case Answer(_, response, results, records) => AnsweredOk(c, |w.row.steps|, k, response, results, records);
      case _ =>
    }
    MoveKeepsInv(c, w, v, e.o);
  }

  lemma StoreKeepsInv(c: Config, w: World, e: Event)
    requires Inv(c, w) && Enabled(c, w, e) && !IsLocal(e) && !e.Commit?
    ensures Inv(c, Apply(c, w, e))
  {
    var v := Apply(c, w, e);
    if !e.Tick? {
      assert e.o in w.workers ==> WorkerOk(c, |w.row.steps|, w.workers[e.o]);
      MoveKeepsInv(c, w, v, e.o);
    }
  }

  lemma InvStep(c: Config, w: World, e: Event)
    requires Inv(c, w) && Enabled(c, w, e)
    ensures Inv(c, Apply(c, w, e))
  {
    if e.Commit? { CommitKeepsInv(c, w, e.o); }
    else if IsLocal(e) { LocalKeepsInv(c, w, e); }
    else { StoreKeepsInv(c, w, e); }
  }

  lemma {:induction false} InvRun(c: Config, w: World, es: seq<Event>)
    requires Inv(c, w) && CanRun(c, w, es)
    ensures Inv(c, Run(c, w, es))
    decreases |es|
  {
    if |es| > 0 {
      InvStep(c, w, es[0]);
      InvRun(c, Apply(c, w, es[0]), es[1..]);
    }
  }

  // --- What the store holds ----------------------------------------------------------

  /** Committed step indexes are exactly 0 to n-1, and n never passes the step cap. */
  lemma IndexesAreContiguous(c: Config, es: seq<Event>)
    requires CanRun(c, Start(c), es)
    ensures var row := Run(c, Start(c), es).row;
            && (forall i :: 0 <= i < |row.steps| ==> row.steps[i].idx == i)
            && (forall i :: 0 <= i < |row.messages| ==> row.messages[i].idx == i)
            && (|row.steps| > 0 ==> |row.steps| <= c.limits.maxSteps)
  {
    InvStart(c);
    InvRun(c, Start(c), es);
  }

  /** The stored conversation and counters are those of the accepted commits, in order. */
  lemma StoreIsTheCommittedSteps(c: Config, es: seq<Event>)
    requires CanRun(c, Start(c), es)
    ensures var w := Run(c, Start(c), es);
            && |w.batches| == |w.row.steps|
            && WireOf(w.row.messages) == AllToWire(Flatten(w.batches))
            && UsageOf(w.row) == Spent(w.row.steps)
            && forall i :: 0 <= i < |w.batches| ==> BatchOk(c, w.row.steps[i], w.batches[i])
  {
    InvStart(c);
    InvRun(c, Start(c), es);
  }

  lemma {:induction false} OpeningOnlyFirst(c: Config, steps: seq<StepRecord>, batches: seq<seq<Message>>)
    requires |steps| == |batches| > 0
    requires forall i :: 0 <= i < |steps| ==> steps[i].idx == i && BatchOk(c, steps[i], batches[i])
    ensures |Flatten(batches)| > 0 && Flatten(batches)[0] == Opening(c)
    ensures forall j :: 0 < j < |Flatten(batches)| ==> Flatten(batches)[j] != Opening(c)
  {
    var n := |batches| - 1;
    var last, init := batches[n], Flatten(batches[..n]);
    assert BatchOk(c, steps[n], last);
    TurnsAreNotOpenings(c, steps[n], last[|Unsaved(c, n)|..]);
    if n == 0 {
      assert Flatten(batches) == last;
      assert last == last[..1] + last[1..];
    } else {
      OpeningOnlyFirst(c, steps[..n], batches[..n]);
      assert last[0..] == last;
    }
  }

  lemma TurnsAreNotOpenings(c: Config, step: StepRecord, turn: seq<Message>)
    requires TurnOk(step, turn)
    ensures forall j :: 0 <= j < |turn| ==> turn[j] != Opening(c)
  {
    assert Opening(c).content[0].TextBlock?;
    forall j | 0 <= j < |turn| ensures turn[j] != Opening(c) {
      if IsResults(turn[j]) { assert turn[j].content[0] in turn[j].content; }
    }
  }

  /** The opening user message is stored once, at position 0. */
  lemma OpeningStoredOnce(c: Config, es: seq<Event>)
    requires CanRun(c, Start(c), es)
    ensures var w := Run(c, Start(c), es);
            var stored := Flatten(w.batches);
            |w.row.steps| > 0 ==>
              && |stored| > 0 && stored[0] == Message(User, [TextBlock(c.query)])
              && forall j :: 0 < j < |stored| ==> stored[j] != Message(User, [TextBlock(c.query)])
  {
    InvStart(c);
    InvRun(c, Start(c), es);
    var w := Run(c, Start(c), es);
    if |w.row.steps| > 0 { OpeningOnlyFirst(c, w.row.steps, w.batches); }
  }

  /**
   * In any reachable state a commit is refused exactly when its step is already there; never
   * over a message row; and the refusal changes nothing that is stored.
   */
  lemma RefusedCommitChangesNothing(c: Config, es: seq<Event>, o: Owner)
    requires CanRun(c, Start(c), es) && Enabled(c, Run(c, Start(c), es), Commit(o))
    ensures var w := Run(c, Start(c), es);
            var k, v := w.workers[o], Apply(c, w, Commit(o));
            && (CommitStep(w.row, k.pc.step, k.pending).Err? <==> k.pc.step.idx < |w.row.steps|)
            && (k.pc.step.idx < |w.row.steps| ==> v.row == w.row && v.batches == w.batches)
            && (k.pc.step.idx >= |w.row.steps| ==>
                  && v.row.steps == w.row.steps + [k.pc.step] && k.pc.step.idx == |w.row.steps|
                  && v.batches == w.batches + [k.pending])
  {
    InvStart(c);
    InvRun(c, Start(c), es);
    var w := Run(c, Start(c), es);
    var k := w.workers[o];
    assert WorkerOk(c, |w.row.steps|, k);
    RefusedIffTaken(c, w.row, w.batches, k.pc.step, k.pending);
  }

  // --- Status and lease --------------------------------------------------------------

  predicate LeaseOk(w: World) {
    && (w.row.lease.Some? ==> w.row.status.Running?)
    && forall o | o in w.workers && w.workers[o].pc.Finishing? :: w.workers[o].pc.outcome.status.IsTerminal()
  }

  lemma OutcomesAreTerminal(c: Config, w: World, e: Event)
    requires LeaseOk(w) && Enabled(c, w, e)
    ensures var v := Apply(c, w, e);
            forall o | o in v.workers && v.workers[o].pc.Finishing? :: v.workers[o].pc.outcome.status.IsTerminal()
  {
  }

  lemma LeaseStep(c: Config, w: World, e: Event)
    requires LeaseOk(w) && Enabled(c, w, e)
    ensures var v := Apply(c, w, e);
            && (v.row.lease.Some? ==> v.row.status.Running?)
            && (w.row.status.IsTerminal() ==> v.row.status.IsTerminal())
  {
  }

  lemma {:induction false} LeaseRun(c: Config, w: World, es: seq<Event>)
    requires LeaseOk(w) && CanRun(c, w, es)
    ensures LeaseOk(Run(c, w, es))
    ensures w.row.status.IsTerminal() ==> Run(c, w, es).row.status.IsTerminal()
    decreases |es|
  {
    if |es| > 0 {
      OutcomesAreTerminal(c, w, es[0]);
      LeaseStep(c, w, es[0]);
      LeaseRun(c, Apply(c, w, es[0]), es[1..]);
    }
  }

  /**
   * Stale writers included: a held lease means RUNNING, so a queued, paused or terminal run
   * holds none, and a run that was terminal once is terminal ever after.
   */
  lemma TerminalIsForever(c: Config, es: seq<Event>, more: seq<Event>)
    requires CanRun(c, Start(c), es) && CanRun(c, Run(c, Start(c), es), more)
    ensures var w := Run(c, Start(c), es);
            && (w.row.lease.Some? ==> w.row.status.Running?)
            && (w.row.status.IsTerminal() ==> Run(c, w, more).row.status.IsTerminal())
  {
    LeaseRun(c, Start(c), es);
    LeaseRun(c, Run(c, Start(c), es), more);
  }

  // --- Retries -----------------------------------------------------------------------

  function Allowance(limits: RunLimits): nat {
    if limits.maxRunRetries < 0 then 0 else limits.maxRunRetries
  }

  function Least(a: nat, b: nat): nat { if a <= b then a else b }

  predicate RetriesOk(c: Config, w: World) {
    && w.granted == Least(w.row.retriesUsed, Allowance(c.limits))
    && 0.0 <= w.backoff
    && (c.backoff.Valid() ==> w.backoff <= w.granted as real * c.backoff.maxSeconds)
  }

  lemma ChargeKeepsRetries(c: Config, w: World, o: Owner, random: real)
    requires RetriesOk(c, w) && Enabled(c, w, Charge(o, random))
    ensures RetriesOk(c, ChargeEffect(c, w, o, random))
  {
    var g, m := w.granted as real, c.backoff.maxSeconds;
    assert (g + 1.0) * m == g * m + m;
  }

  lemma RetryStep(c: Config, w: World, e: Event)
    requires RetriesOk(c, w) && Enabled(c, w, e)
    ensures RetriesOk(c, Apply(c, w, e))
  {
    if e.Charge? {
      ChargeKeepsRetries(c, w, e.o, e.random);
    } else {
      var v := Apply(c, w, e);
      assert v.granted == w.granted && v.backoff == w.backoff && v.row.retriesUsed == w.row.retriesUsed;
    }
  }

  lemma {:induction false} RetryRun(c: Config, w: World, es: seq<Event>)
    requires RetriesOk(c, w) && CanRun(c, w, es)
    ensures RetriesOk(c, Run(c, w, es))
    decreases |es|
  {
    if |es| > 0 {
      RetryStep(c, w, es[0]);
      RetryRun(c, Apply(c, w, es[0]), es[1..]);
    }
  }

  /**
   * Over a run's whole life, across every worker and resume, no more retries are granted than
   * it allows, and no more backoff is asked for than that many of the longest delay.
   */
  lemma RetriesAreBounded(c: Config, es: seq<Event>)
    requires CanRun(c, Start(c), es) && c.backoff.Valid()
    ensures var w := Run(c, Start(c), es);
            && w.granted <= Allowance(c.limits) && w.granted <= w.row.retriesUsed
            && w.backoff <= Allowance(c.limits) as real * c.backoff.maxSeconds
  {
    RetryStart(c);
    RetryRun(c, Start(c), es);
    var w := Run(c, Start(c), es);
    BackoffBound(w.granted, Allowance(c.limits), c.backoff.maxSeconds, w.backoff);
  }

  lemma RetryStart(c: Config)
    ensures RetriesOk(c, Start(c))
  {
    var m := c.backoff.maxSeconds;
    assert 0 as real * m == 0.0 * m == 0.0;
  }

  lemma BackoffBound(granted: nat, allowed: nat, longest: real, backoff: real)
    requires granted <= allowed && 0.0 <= longest && backoff <= granted as real * longest
    ensures backoff <= allowed as real * longest
  {
    Grows(granted as real, allowed as real, longest);
  }

  lemma Grows(a: real, b: real, m: real)
    requires a <= b && 0.0 <= m
    ensures a * m <= b * m
  {
    assert Product(b - a, m) == b * m - a * m;
  }

  // --- How much one call of `run` may ask --------------------------------------------

  /** The steps a worker may still take from where it loaded. */
  function StepsAllowed(c: Config, k: Worker): nat {
    if c.limits.maxSteps <= k.stepsAtLoad then 0 else c.limits.maxSteps - k.stepsAtLoad
  }

  /** What a worker was granted has been charged to the row since it loaded. */
  predicate GrantsOk(c: Config, retriesUsed: nat, k: Worker) {
    k.pc.Loading? ||
    (k.granted + k.retriesAtLoad <= retriesUsed
     && (k.granted > 0 ==> k.granted + k.retriesAtLoad <= c.limits.maxRunRetries))
  }

  /** A request is paid for by a step taken, a retry granted, or the step being tried. */
  predicate RequestsOk(c: Config, k: Worker) {
    match k.pc
    case Loading => k == NEWCOMER
    case Head => k.stepsAtLoad <= |k.steps| && k.requests <= |k.steps| - k.stepsAtLoad + k.granted && Bounded(c, k)
    case Asking(_) => Trying(c, k)
    case Charging(_) => Trying(c, k)
    case Committing(_, _) => Trying(c, k)
    case Renewing(_, _) => Trying(c, k)
    case _ => Bounded(c, k)
  }

  predicate Bounded(c: Config, k: Worker) { k.requests <= StepsAllowed(c, k) + k.granted }

  predicate Trying(c: Config, k: Worker) {
    && k.stepsAtLoad <= |k.steps| < c.limits.maxSteps
    && k.requests <= |k.steps| - k.stepsAtLoad + k.granted + 1
  }

  predicate AskedOk(c: Config, w: World) {
    forall o | o in w.workers :: GrantsOk(c, w.row.retriesUsed, w.workers[o]) && RequestsOk(c, w.workers[o])
  }

  lemma AskedMoves(c: Config, w: World, v: World, o: Owner)
    requires AskedOk(c, w) && o in v.workers && v.row.retriesUsed >= w.row.retriesUsed
    requires v.workers == w.workers[o := v.workers[o]]
    requires GrantsOk(c, v.row.retriesUsed, v.workers[o]) && RequestsOk(c, v.workers[o])
    ensures AskedOk(c, v)
  {
  }

  lemma LoadedAsked(c: Config, row: RunRow, k: Worker)
    requires RequestsOk(c, k) && k.pc.Loading?
    ensures GrantsOk(c, row.retriesUsed, Loaded(c, row, k)) && RequestsOk(c, Loaded(c, row, k))
  {
  }

  lemma AnsweredAsked(c: Config, k: Worker, r: Response, results: seq<Block>, records: seq<ToolCallRecord>)
    requires RequestsOk(c, k) && k.pc.Asking?
    ensures var k' := Answered(k, r, results, records);
            && RequestsOk(c, k')
            && k'.granted == k.granted && k'.retriesAtLoad == k.retriesAtLoad && !k'.pc.Loading?
  {
  }

  lemma AskedLocal(c: Config, w: World, e: Event)
    requires Inv(c, w) && AskedOk(c, w) && Enabled(c, w, e) && IsLocal(e)
    ensures AskedOk(c, Apply(c, w, e))
  {
    var k, v := w.workers[e.o], Apply(c, w, e);
    assert WorkerOk(c, |w.row.steps|, k) && RequestsOk(c, k) && GrantsOk(c, w.row.retriesUsed, k);
    match e {
      case LoadRow(_) => LoadedAsked(c, w.row, k);
      case Answer(_, r, results, records) => AnsweredAsked(c, k, r, results, records);
      case _ =>
    }
    AskedMoves(c, w, v, e.o);
  }

  lemma CommitAsked(w: World, o: Owner, c: Config)
    requires o in w.workers && w.workers[o].pc.Committing? && RequestsOk(c, w.workers[o])
    ensures var v := CommitEffect(w, o);
            && v.workers == w.workers[o := v.workers[o]] && v.row.retriesUsed == w.row.retriesUsed
            && v.workers[o].pc.Renewing? && RequestsOk(c, v.workers[o])
            && v.workers[o].granted == w.workers[o].granted
            && v.workers[o].retriesAtLoad == w.workers[o].retriesAtLoad
  {
  }

  lemma ChargeAsked(c: Config, w: World, o: Owner, random: real)
    requires Enabled(c, w, Charge(o, random))
    requires GrantsOk(c, w.row.retriesUsed, w.workers[o]) && RequestsOk(c, w.workers[o])
    ensures var v := ChargeEffect(c, w, o, random);
            && v.workers == w.workers[o := v.workers[o]] && v.row.retriesUsed == w.row.retriesUsed + 1
            && GrantsOk(c, v.row.retriesUsed, v.workers[o]) && RequestsOk(c, v.workers[o])
  {
  }

  lemma RenewAsked(c: Config, w: World, o: Owner)
    requires o in w.workers && w.workers[o].pc.Renewing?
    requires GrantsOk(c, w.row.retriesUsed, w.workers[o]) && RequestsOk(c, w.workers[o])
    ensures var v := RenewEffect(c, w, o);
            && v.workers == w.workers[o := v.workers[o]] && v.row.retriesUsed == w.row.retriesUsed
            && GrantsOk(c, v.row.retriesUsed, v.workers[o]) && RequestsOk(c, v.workers[o])
  {
  }

  lemma AskedStore(c: Config, w: World, e: Event)
    requires AskedOk(c, w) && Enabled(c, w, e) && !IsLocal(e) && !e.Tick?
    ensures AskedOk(c, Apply(c, w, e))
  {
    var v := Apply(c, w, e);
    if e.o in w.workers {
      assert RequestsOk(c, w.workers[e.o]) && GrantsOk(c, w.row.retriesUsed, w.workers[e.o]);
    }
    match e {
      case Commit(o) => CommitAsked(w, o, c);
      case Charge(o, random) => ChargeAsked(c, w, o, random);
      case Renew(o) => RenewAsked(c, w, o);
      case _ =>
    }
    AskedMoves(c, w, v, e.o);
  }

  lemma {:induction false} AskedRun(c: Config, w: World, es: seq<Event>)
    requires Inv(c, w) && AskedOk(c, w) && CanRun(c, w, es)
    ensures AskedOk(c, Run(c, w, es))
    decreases |es|
  {
    if |es| > 0 {
      InvStep(c, w, es[0]);
      if IsLocal(es[0]) { AskedLocal(c, w, es[0]); }
      else if !es[0].Tick? { AskedStore(c, w, es[0]); }
      AskedRun(c, Apply(c, w, es[0]), es[1..]);
    }
  }

  /**
   * One call of `run` makes at most a model request for each step and each retry that were
   * left when it loaded the run.
   */
  lemma RequestsAreBounded(c: Config, es: seq<Event>, o: Owner)
    requires CanRun(c, Start(c), es) && o in Run(c, Start(c), es).workers
    ensures var k := Run(c, Start(c), es).workers[o];
            k.requests <= StepsAllowed(c, k)
                          + if Allowance(c.limits) <= k.retriesAtLoad then 0 else Allowance(c.limits) - k.retriesAtLoad
  {
    InvStart(c);
    AskedRun(c, Start(c), es);
    assert RequestsOk(c, Run(c, Start(c), es).workers[o]);
  }

  // --- Losing the lease --------------------------------------------------------------

  predicate LateOk(w: World, o: Owner, k: Worker) {
    && k.lateCommits <= 1
    && (k.lateCommits == 1 ==> TakenOver(w, o) && (k.pc.Renewing? || k.pc.Stopped?))
  }

  /** Only the last claimant can hold the lease, and nobody claims twice. */
  predicate ClaimsOk(w: World) {
    && (w.row.lease.Some? ==> |w.claims| > 0 && w.row.lease.value.owner == w.claims[|w.claims| - 1])
    && (forall o | o in w.workers :: o in w.claims && LateOk(w, o, w.workers[o]))
    && (forall o | o in w.claims :: o in w.workers)
  }

  lemma ClaimStep(c: Config, w: World, o: Owner)
    requires ClaimsOk(w) && Enabled(c, w, Claim(o))
    ensures ClaimsOk(Apply(c, w, Claim(o)))
  {
    var v := Apply(c, w, Claim(o));
    assert v.claims[|v.claims| - 1] == o;
    forall p | p in v.workers ensures p in v.claims && LateOk(v, p, v.workers[p]) {
      if p != o { assert p in w.claims && LateOk(w, p, w.workers[p]); }
    }
  }

  lemma ClaimsMove(w: World, v: World, o: Owner)
    requires ClaimsOk(w) && o in w.workers && o in v.workers
    requires v.claims == w.claims && v.workers == w.workers[o := v.workers[o]]
    requires v.row.lease.Some? ==> w.row.lease.Some? && v.row.lease.value.owner == w.row.lease.value.owner
    requires LateOk(v, o, v.workers[o])
    ensures ClaimsOk(v)
  {
    forall p | p in v.workers ensures p in v.claims && LateOk(v, p, v.workers[p]) {
      assert p in w.claims && LateOk(w, p, w.workers[p]);
    }
  }

  lemma LateStep(c: Config, w: World, e: Event)
    requires ClaimsOk(w) && Enabled(c, w, e) && !e.Claim?
    ensures ClaimsOk(Apply(c, w, e))
  {
    if !e.Tick? {
      assert LateOk(w, e.o, w.workers[e.o]);
      ClaimsMove(w, Apply(c, w, e), e.o);
    }
  }

  lemma {:induction false} LateRun(c: Config, w: World, es: seq<Event>)
    requires ClaimsOk(w) && CanRun(c, w, es)
    ensures ClaimsOk(Run(c, w, es))
    decreases |es|
  {
    if |es| > 0 {
      if es[0].Claim? { ClaimStep(c, w, es[0].o); } else { LateStep(c, w, es[0]); }
      LateRun(c, Apply(c, w, es[0]), es[1..]);
    }
  }

  /**
   * A renewal that succeeds means nobody claimed since; and a worker whose run was taken over
   * tries at most one more commit, after which its renewal fails and it stops.
   */
  lemma TakenOverWorkersStop(c: Config, es: seq<Event>, o: Owner)
    requires CanRun(c, Start(c), es) && o in Run(c, Start(c), es).workers
    ensures var w := Run(c, Start(c), es);
            var k := w.workers[o];
            && k.lateCommits <= 1
            && (k.lateCommits == 1 ==> k.pc.Renewing? || k.pc.Stopped?)
            && (Renewable(w.row, w.now, o) ==> !TakenOver(w, o))
            && (k.pc.Renewing? && TakenOver(w, o) ==> Apply(c, w, Renew(o)).workers[o].pc.Stopped?)
  {
    LateRun(c, Start(c), es);
    assert LateOk(Run(c, Start(c), es), o, Run(c, Start(c), es).workers[o]);
  }

  // --- Completion --------------------------------------------------------------------

  predicate EndsWith(log: seq<Action>, idx: nat) {
    && |log| >= 2 && log[|log| - 1] == TriedRenew(true)
    && log[|log| - 2].TriedCommit? && log[|log| - 2].idx == idx
  }

  predicate LogOk(k: Worker) {
    && (k.pc.Renewing? ==>
          |k.log| >= 1 && k.log[|k.log| - 1].TriedCommit? && k.log[|k.log| - 1].idx == k.pc.step.idx == |k.steps|)
    && (k.pc.Committing? ==> k.pc.step.idx == |k.steps|)
    && (k.pc.Finishing? && k.pc.outcome.status.Completed? ==>
          |k.pc.outcome.steps| > 0 && EndsWith(k.log, |k.pc.outcome.steps| - 1))
  }

  predicate LogsOk(w: World) { forall o | o in w.workers :: LogOk(w.workers[o]) }

  lemma LogMoves(w: World, v: World, o: Owner)
    requires LogsOk(w) && o in v.workers && v.workers == w.workers[o := v.workers[o]] && LogOk(v.workers[o])
    ensures LogsOk(v)
  {
  }

  lemma RenewLogs(c: Config, w: World, o: Owner)
    requires o in w.workers && w.workers[o].pc.Renewing? && LogOk(w.workers[o])
    ensures var v := RenewEffect(c, w, o); v.workers == w.workers[o := v.workers[o]] && LogOk(v.workers[o])
  {
  }

  lemma CommitLogs(w: World, o: Owner)
    requires o in w.workers && w.workers[o].pc.Committing? && LogOk(w.workers[o])
    ensures var v := CommitEffect(w, o); v.workers == w.workers[o := v.workers[o]] && LogOk(v.workers[o])
  {
  }

  lemma LocalLogs(c: Config, w: World, e: Event)
    requires Enabled(c, w, e) && IsLocal(e) && LogOk(w.workers[e.o])
    ensures var v := Apply(c, w, e); v.workers == w.workers[e.o := v.workers[e.o]] && LogOk(v.workers[e.o])
  {
  }

  lemma LogStep(c: Config, w: World, e: Event)
    requires LogsOk(w) && Enabled(c, w, e) && !e.Tick?
    ensures LogsOk(Apply(c, w, e))
  {
    assert e.o in w.workers ==> LogOk(w.workers[e.o]);
    if IsLocal(e) {
      LocalLogs(c, w, e);
    } else {
      match e {
        case Commit(o) => CommitLogs(w, o);
        case Renew(o) => RenewLogs(c, w, o);
        case _ =>
      }
    }
    LogMoves(w, Apply(c, w, e), e.o);
  }

  lemma {:induction false} LogRun(c: Config, w: World, es: seq<Event>)
    requires LogsOk(w) && CanRun(c, w, es)
    ensures LogsOk(Run(c, w, es))
    decreases |es|
  {
    if |es| > 0 {
      if !es[0].Tick? { LogStep(c, w, es[0]); }
      LogRun(c, Apply(c, w, es[0]), es[1..]);
    }
  }

  /** COMPLETED is written only straight after a held renewal that followed the last commit. */
  lemma CompletionFollowsRenewal(c: Config, es: seq<Event>, o: Owner)
    requires CanRun(c, Start(c), es) && Enabled(c, Run(c, Start(c), es), Finish(o))
    requires Run(c, Start(c), es).workers[o].pc.outcome.status.Completed?
    ensures var k := Run(c, Start(c), es).workers[o];
            |k.pc.outcome.steps| > 0 && EndsWith(k.log, |k.pc.outcome.steps| - 1)
  {
    LogRun(c, Start(c), es);
    assert LogOk(Run(c, Start(c), es).workers[o]);
  }
}