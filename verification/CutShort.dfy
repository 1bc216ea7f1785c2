/**
 * A run that was cut short: the same agent, with a crash after its final commit, ends FAILED
 * where it would have been COMPLETED, or, with steps to spare, sends a malformed request.
 */
module CutShort {
  import opened Wrappers
  import opened Messages
  import opened RunState
  import opened RunStore
  import RunMachine
  import opened RunSafety
  import opened SoloRun
  import opened DurableRun
  import opened CrashTransparency

  /** A step is allowed, and every reply is a last one. */
  ghost predicate OneReply(a: Agent) {
    && a.config.limits.maxSteps >= 1 && a.config.limits.tokenBudget >= MIN_VIABLE_OUTPUT_TOKENS
    && a.config.ttl == 1
    && (forall ms, n :: a.model(ms, n) == Response(EndTurn, [], Usage(0, 0, 0)))
    && (forall id :: a.tool(id).Unusable?)
  }

  lemma OneReplyIsTransparent(a: Agent)
    requires OneReply(a)
    ensures Transparent(a)
  {
  }

  ghost predicate Gets(a: Agent, es: seq<Event>, w: World) {
    CanRun(a, Start(a), es) && OneAtATime(a, Start(a), es) && Run(a, Start(a), es) == w
  }

  lemma Then(a: Agent, es: seq<Event>, w: World, e: Event) returns (fs: seq<Event>, v: World)
    requires Gets(a, es, w) && Enabled(a, w, e) && Alone(Apply(a, w, e).run)
    ensures fs == es + [e] && v == Apply(a, w, e) && Gets(a, fs, v)
  {
    ScheduleSnoc(a, Start(a), es, e);
    fs, v := es + [e], Apply(a, w, e);
  }

  /** A final step that cost nothing. */
  predicate Final(s: StepRecord) { s.idx == 0 && s.stop.EndTurn? && s.usage == Usage(0, 0, 0) }

  /** `o` is the only worker there is, at `pc`. */
  predicate Lone(w: World, o: Owner, k: RunMachine.Worker) {
    w.run.workers == map[o := k] && w.talks == map[]
  }

  lemma Opens(a: Agent, o: Owner) returns (es: seq<Event>, w: World)
    requires OneReply(a)
    ensures Gets(a, es, w) && w.run.now == 0 && w.run.row.lease == Some(Lease(o, 1)) && w.run.row.status.Running?
    ensures w.run.row.steps == [] && w.run.row.messages == [] && !w.cutShort
    ensures o in w.run.workers && Lone(w, o, w.run.workers[o]) && w.run.workers[o].pc == RunMachine.Head
    ensures w.run.workers[o].usage == RunUsage(0, 0, 0, 0) && w.run.workers[o].steps == []
  {
    es, w := [], Start(a);
    es, w := Then(a, es, w, Store(RunMachine.Claim(o)));
    assert Lone(w, o, RunMachine.NEWCOMER) && w.run.row.messages == [];
    assert Load(w.run.row).Ok?;
    es, w := Then(a, es, w, Store(RunMachine.LoadRow(o)));
  }

  lemma Asks(a: Agent, o: Owner) returns (es: seq<Event>, w: World)
    requires OneReply(a)
    ensures Gets(a, es, w) && w.run.now == 0 && w.run.row.lease == Some(Lease(o, 1)) && w.run.row.status.Running?
    ensures w.run.row.steps == [] && w.run.row.messages == [] && !w.cutShort
    ensures o in w.run.workers && Lone(w, o, w.run.workers[o])
    ensures w.run.workers[o].pc == RunMachine.Asking(1) && w.run.workers[o].steps == []
  {
    es, w := Opens(a, o);
    var k := w.run.workers[o];
    assert RunMachine.Checked(a.config, k) == k.(pc := RunMachine.Asking(1), requests := k.requests + 1);
    es, w := Then(a, es, w, Store(RunMachine.Check(o)));
  }

  /** The reply is taken; its commit is next. */
  lemma Replies(a: Agent, o: Owner) returns (es: seq<Event>, w: World)
    requires OneReply(a)
    ensures Gets(a, es, w) && w.run.now == 0 && w.run.row.lease == Some(Lease(o, 1)) && w.run.row.status.Running?
    ensures w.run.row.steps == [] && w.run.row.messages == [] && !w.cutShort
    ensures o in w.run.workers && Lone(w, o, w.run.workers[o])
    ensures w.run.workers[o].pc.Committing? && Final(w.run.workers[o].pc.step) && w.run.workers[o].pc.answer.Some?
  {
    es, w := Asks(a, o);
    es, w := Then(a, es, w, Respond(o));
    assert w.talks == map[o := Talk(Response(EndTurn, [], Usage(0, 0, 0)), [], [], Idle)];
    es, w := Then(a, es, w, Turn(o));
    assert w.talks == map[];
  }

  lemma CommitsIt(a: Agent, o: Owner) returns (es: seq<Event>, w: World)
    requires OneReply(a)
    ensures Gets(a, es, w) && w.run.now == 0 && !w.cutShort
    ensures w.run.row.lease == Some(Lease(o, 1)) && w.run.row.status.Running? && |w.run.row.steps| == 1 && Final(w.run.row.steps[0])
    ensures o in w.run.workers && Lone(w, o, w.run.workers[o]) && Closing(w.run.workers[o])
  {
    es, w := Replies(a, o);
    es, w := Then(a, es, w, Store(RunMachine.Commit(o)));
  }

  /** The step is committed, and the worker dies before it can say so. */
  lemma Dies(a: Agent, o: Owner) returns (es: seq<Event>, w: World)
    requires OneReply(a)
    ensures Gets(a, es, w) && w.cutShort && w.run.now == 2
    ensures w.run.row.lease == Some(Lease(o, 1)) && w.run.row.status.Running? && |w.run.row.steps| == 1 && Final(w.run.row.steps[0])
    ensures o in w.run.workers && Lone(w, o, w.run.workers[o]) && w.run.workers[o].pc.Stopped?
  {
    es, w := CommitsIt(a, o);
    es, w := Then(a, es, w, Store(RunMachine.Crash(o)));
    es, w := Then(a, es, w, Store(RunMachine.Tick(2)));
  }

  /** The lease runs out and another worker claims the run. */
  lemma ClaimsAgain(a: Agent, o: Owner, p: Owner) returns (es: seq<Event>, w: World)
    requires OneReply(a) && o != p
    ensures Gets(a, es, w) && w.cutShort && w.run.row.status.Running? && |w.run.row.steps| == 1 && Final(w.run.row.steps[0])
    ensures p in w.run.workers && w.run.workers[p] == RunMachine.NEWCOMER
    ensures forall q | q in w.run.workers && q != p :: w.run.workers[q].pc.Stopped?
  {
    es, w := Dies(a, o);
    es, w := Then(a, es, w, Store(RunMachine.Claim(p)));
  }

  lemma SpentOnOne(s: StepRecord)
    ensures Spent([s]) == RunUsage(1, s.usage.input, s.usage.output, s.usage.cacheRead)
  {
    assert [s][..0] == [];
  }

  lemma LoadsOneStep(c: RunMachine.Config, w: RunMachine.World)
    requires SoloInv(c, w) && |w.row.steps| == 1
    ensures var s := w.row.steps[0];
            && Load(w.row).Ok?
            && Load(w.row).value.usage == RunUsage(1, s.usage.input, s.usage.output, s.usage.cacheRead)
  {
    LoadGivesBack(c, w);
    assert w.row.steps == [w.row.steps[0]];
    SpentOnOne(w.row.steps[0]);
  }

  lemma HoldsInv(a: Agent, es: seq<Event>, w: World)
    requires OneReply(a) && Gets(a, es, w)
    ensures CrashTransparency.Inv(a, w)
  {
    OneReplyIsTransparent(a);
    StartsOnCourse(a);
    InvHolds(a, Start(a), es);
  }

  /** What a worker loads of a run with its final step behind it. */
  lemma LoadsFinal(a: Agent, w: World, p: Owner)
    requires CrashTransparency.Inv(a, w) && |w.run.row.steps| == 1 && Final(w.run.row.steps[0])
    requires RunMachine.At(w.run, p, RunMachine.Loading)
    ensures var v := Apply(a, w, Store(RunMachine.LoadRow(p)));
            && v == w.(run := w.run.(workers := v.run.workers))
            && p in v.run.workers && v.run.workers == w.run.workers[p := v.run.workers[p]]
            && v.run.workers[p].pc == RunMachine.Head && v.run.workers[p].usage == RunUsage(1, 0, 0, 0)
  {
    LoadsOneStep(a.config, w.run);
  }

  lemma LoadsItsFinal(a: Agent, es: seq<Event>, w: World, p: Owner)
    requires OneReply(a) && Gets(a, es, w) && |w.run.row.steps| == 1 && Final(w.run.row.steps[0])
    requires RunMachine.At(w.run, p, RunMachine.Loading)
    ensures var v := Apply(a, w, Store(RunMachine.LoadRow(p)));
            && v == w.(run := w.run.(workers := v.run.workers))
            && p in v.run.workers && v.run.workers == w.run.workers[p := v.run.workers[p]]
            && v.run.workers[p].pc == RunMachine.Head && v.run.workers[p].usage == RunUsage(1, 0, 0, 0)
  {
    HoldsInv(a, es, w);
    LoadsFinal(a, w, p);
  }

  /** The run is loaded with its final step behind it. */
  lemma Resumes(a: Agent, o: Owner, p: Owner) returns (es: seq<Event>, w: World)
    requires OneReply(a) && o != p
    ensures Gets(a, es, w) && w.cutShort && w.run.row.status.Running? && |w.run.row.steps| == 1 && Final(w.run.row.steps[0])
    ensures p in w.run.workers && w.run.workers[p].pc == RunMachine.Head
    ensures w.run.workers[p].usage == RunUsage(1, 0, 0, 0)
    ensures forall q | q in w.run.workers && q != p :: w.run.workers[q].pc.Stopped?
  {
    es, w := ClaimsAgain(a, o, p);
    LoadsItsFinal(a, es, w, p);
    es, w := Then(a, es, w, Store(RunMachine.LoadRow(p)));
  }

  /** With no step left, the run that was cut short is FAILED; uninterrupted it is COMPLETED. */
  lemma CutShortRunFails(a: Agent, o: Owner, p: Owner) returns (es: seq<Event>)
    requires OneReply(a) && a.config.limits.maxSteps == 1 && o != p
    ensures Transparent(a) && CanRun(a, Start(a), es) && OneAtATime(a, Start(a), es)
    ensures Run(a, Start(a), es).run.row.status.Failed? && Run(a, Start(a), es).cutShort
    ensures Whole(a).status.Completed?
  {
    var w;
    es, w := Resumes(a, o, p);
    es, w := Then(a, es, w, Store(RunMachine.Check(p)));
    es, w := Then(a, es, w, Store(RunMachine.Finish(p)));
    assert Spent([]) == RunUsage(0, 0, 0, 0);
  }

  /** With steps to spare it asks the model again, and what it sends is no well-formed request. */
  lemma CutShortRequestIsMalformed(a: Agent, o: Owner, p: Owner) returns (es: seq<Event>)
    requires OneReply(a) && a.config.limits.maxSteps >= 2 && o != p
    ensures Transparent(a) && CanRun(a, Start(a), es) && OneAtATime(a, Start(a), es)
    ensures var w := Run(a, Start(a), es);
            && p in w.run.workers && w.run.workers[p].pc.Asking?
            && !WellFormedRequest(a.config, w.run.workers[p].messages)
  {
    var w;
    es, w := Resumes(a, o, p);
    es, w := Then(a, es, w, Store(RunMachine.Check(p)));
    HoldsInv(a, es, w);
    AskingIsMalformed(a.config, w.run, p);
  }

  lemma AskingIsMalformed(c: RunMachine.Config, w: RunMachine.World, p: Owner)
    requires SoloInv(c, w) && p in w.workers && w.workers[p].pc.Asking? && |w.row.steps| == 1 && Final(w.row.steps[0])
    ensures !WellFormedRequest(c, w.workers[p].messages)
  {
    assert Agrees(c, w.row, Flatten(w.batches), w.workers[p]) && WorkerOk(c, |w.row.steps|, w.workers[p]);
    RequestOf(c, w.row, w.batches, w.workers[p]);
    assert w.row.steps[0] in w.row.steps;
  }
}
