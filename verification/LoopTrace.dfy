/**
 * One worker's moves in `RunMachine`, one lemma for each: what the move does to the row and
 * to the worker, and that it continues the run so far. They are how the loop's code is tied
 * to the machine.
 */
module LoopTrace {
  import opened Json
  import opened Messages
  import opened RunState
  import opened RunStore
  import opened RunMachine
  import opened RunSafety
  import opened SoloRun

  /** An answer as it is given: what the worker had when it asked, and what it was told. */
  datatype Said = Said(
    messages: seq<Message>, usage: RunUsage, stepIdx: nat,
    response: Response, results: seq<Block>, records: seq<ToolCallRecord>)

  /** One worker's moves: whose, under which configuration, and what is known of its answers. */
  datatype Driver = Driver(c: Config, o: Owner, says: Said -> bool)

  function Saying(k: Worker, r: Response, results: seq<Block>, records: seq<ToolCallRecord>): Said {
    Said(k.messages, k.usage, |k.steps|, r, results, records)
  }

  /** The worker's own events and the passing of time. */
  predicate Own(d: Driver, w: World, e: Event) {
    && (e.Tick? || e.o == d.o)
    && (e.Answer? ==> e.o in w.workers && d.says(Saying(w.workers[e.o], e.response, e.results, e.records)))
  }

  /** The provider's blocks are ones the store keeps exactly. */
  ghost predicate Keeps(d: Driver) {
    forall s :: d.says(s) ==> forall b | b in s.response.content :: Stable(b)
  }

  ghost predicate KeptBy(d: Driver, p: World -> bool) {
    forall w, e :: p(w) && Enabled(d.c, w, e) && Own(d, w, e) ==> p(Apply(d.c, w, e))
  }

  /**
   * `v` has every property of `w` that the worker's events do not take away: that is, some
   * sequence of those events leads from `w` to `v` (`FollowsByEvents`).
   */
  ghost predicate Follows(d: Driver, w: World, v: World) {
    forall p: World -> bool :: p(w) && KeptBy(d, p) ==> p(v)
  }

  predicate AllOwn(d: Driver, w: World, es: seq<Event>)
    requires CanRun(d.c, w, es)
    decreases |es|
  {
    |es| == 0 || (Own(d, w, es[0]) && AllOwn(d, Apply(d.c, w, es[0]), es[1..]))
  }

  ghost predicate Led(d: Driver, w: World, es: seq<Event>, v: World) {
    CanRun(d.c, w, es) && AllOwn(d, w, es) && Run(d.c, w, es) == v
  }

  lemma {:induction false} EventSnoc(c: Config, w: World, es: seq<Event>, e: Event)
    requires CanRun(c, w, es) && Enabled(c, Run(c, w, es), e)
    ensures CanRun(c, w, es + [e]) && Run(c, w, es + [e]) == Apply(c, Run(c, w, es), e)
    decreases |es|
  {
    if |es| == 0 {
      var v := Apply(c, w, e);
      assert es + [e] == [e] && [e][1..] == [] && CanRun(c, v, []) && Run(c, v, []) == v;
    } else {
      EventSnoc(c, Apply(c, w, es[0]), es[1..], e);
      assert (es + [e])[0] == es[0] && (es + [e])[1..] == es[1..] + [e];
    }
  }

  lemma {:induction false} OwnSnoc(d: Driver, w: World, es: seq<Event>, e: Event)
    requires CanRun(d.c, w, es) && AllOwn(d, w, es)
    requires Enabled(d.c, Run(d.c, w, es), e) && Own(d, Run(d.c, w, es), e)
    ensures Led(d, w, es + [e], Apply(d.c, Run(d.c, w, es), e))
    decreases |es|
  {
    EventSnoc(d.c, w, es, e);
    if |es| == 0 {
      assert es + [e] == [e] && [e][1..] == [];
      assert AllOwn(d, Apply(d.c, w, e), []);
    } else {
      OwnSnoc(d, Apply(d.c, w, es[0]), es[1..], e);
      assert (es + [e])[0] == es[0] && (es + [e])[1..] == es[1..] + [e];
    }
  }

  lemma {:induction false} PropertyHolds(d: Driver, w: World, es: seq<Event>, p: World -> bool)
    requires CanRun(d.c, w, es) && AllOwn(d, w, es) && p(w) && KeptBy(d, p)
    ensures p(Run(d.c, w, es))
    decreases |es|
  {
    if |es| > 0 { PropertyHolds(d, Apply(d.c, w, es[0]), es[1..], p); }
  }

  lemma FollowsByEvents(d: Driver, w: World, v: World)
    ensures Follows(d, w, v) <==> exists es :: Led(d, w, es, v)
  {
    var p := (u: World) => exists es :: Led(d, w, es, u);
    assert KeptBy(d, p) by {
      forall u, e | p(u) && Enabled(d.c, u, e) && Own(d, u, e) ensures p(Apply(d.c, u, e)) {
        var es :| Led(d, w, es, u);
        OwnSnoc(d, w, es, e);
        assert Led(d, w, es + [e], Apply(d.c, u, e));
      }
    }
    assert p(w) by { assert Led(d, w, [], w); }
    if exists es :: Led(d, w, es, v) {
      var es :| Led(d, w, es, v);
      forall q: World -> bool | q(w) && KeptBy(d, q) ensures q(v) {
        PropertyHolds(d, w, es, q);
      }
    } else {
      assert !p(v);
    }
  }

  lemma Stay(d: Driver, w: World)
    ensures Follows(d, w, w)
  {
  }

  lemma Chain(d: Driver, u: World, w: World, v: World)
    requires Follows(d, u, w) && Follows(d, w, v)
    ensures Follows(d, u, v)
  {
  }

  lemma Take(d: Driver, w: World, e: Event)
    requires Enabled(d.c, w, e) && Own(d, w, e)
    ensures Follows(d, w, Apply(d.c, w, e))
  {
  }

  ghost predicate Solo(c: Config, w: World, o: Owner) { SoloInv(c, w) && Only(w, o) }

  lemma SoloMove(c: Config, w: World, v: World, e: Event, o: Owner)
    requires Enabled(c, w, e) && v == Apply(c, w, e) && Keepable(e) && Solo(c, w, o)
    requires v.workers == w.workers || (o in v.workers && v.workers == w.workers[o := v.workers[o]])
    ensures Solo(c, v, o)
  {
    assert Alone(w);
    SoloStep(c, w, e);
  }

  /** A worker alone in step with the store stays so, if the provider's blocks keep. */
  lemma StaysSolo(d: Driver, w: World, v: World)
    requires Follows(d, w, v) && Keeps(d) && Solo(d.c, w, d.o)
    ensures Solo(d.c, v, d.o)
  {
    var p := (u: World) => Solo(d.c, u, d.o);
    assert KeptBy(d, p) by {
      forall u, e | p(u) && Enabled(d.c, u, e) && Own(d, u, e) ensures p(Apply(d.c, u, e)) {
        OneMoves(d.c, u, e);
        SoloMove(d.c, u, Apply(d.c, u, e), e, d.o);
      }
    }
    assert p(w);
  }

  /** A move by the worker from `w` to `v`: everyone else and the clock stand still. */
  ghost predicate Moved(d: Driver, w: World, v: World) {
    && Follows(d, w, v) && v.now == w.now
    && d.o in v.workers && v.workers == w.workers[d.o := v.workers[d.o]]
  }

  lemma Move(d: Driver, w: World, e: Event)
    requires Enabled(d.c, w, e) && Own(d, w, e) && !e.Tick?
    ensures Moved(d, w, Apply(d.c, w, e))
  {
    Take(d, w, e);
    OneMoves(d.c, w, e);
  }

  lemma Ticks(d: Driver, w: World, later: int) returns (v: World)
    requires w.now <= later
    ensures Follows(d, w, v) && v == w.(now := later)
  {
    v := Apply(d.c, w, Tick(later));
    Take(d, w, Tick(later));
  }

  lemma Claims(d: Driver, w: World) returns (v: World)
    requires d.o !in w.workers && Claimable(w.row, w.now)
    ensures Moved(d, w, v) && v.workers[d.o] == NEWCOMER && v.row == Claimed(w.row, w.now, d.o, d.c.ttl)
  {
    v := Apply(d.c, w, Claim(d.o));
    Move(d, w, Claim(d.o));
  }

  lemma Loads(d: Driver, w: World) returns (v: World)
    requires At(w, d.o, Loading)
    ensures Moved(d, w, v) && v.workers[d.o] == Loaded(d.c, w.row, w.workers[d.o]) && v.row == w.row
  {
    v := Apply(d.c, w, LoadRow(d.o));
    Move(d, w, LoadRow(d.o));
  }

  lemma Checks(d: Driver, w: World) returns (v: World)
    requires At(w, d.o, Head)
    ensures Moved(d, w, v) && v.workers[d.o] == Checked(d.c, w.workers[d.o]) && v.row == w.row
  {
    v := Apply(d.c, w, Check(d.o));
    Move(d, w, Check(d.o));
  }

  lemma Fails(d: Driver, w: World) returns (v: World)
    requires d.o in w.workers && w.workers[d.o].pc.Asking?
    ensures var next := w.workers[d.o].pc.attempt + 1;
            && Moved(d, w, v) && v.row == w.row
            && v.workers[d.o] == w.workers[d.o].(pc := if next > d.c.limits.maxStepAttempts then Pausing else Charging(next))
  {
    v := Apply(d.c, w, Fail(d.o));
    Move(d, w, Fail(d.o));
  }

  lemma Charges(d: Driver, w: World, random: real) returns (v: World)
    requires d.o in w.workers && w.workers[d.o].pc.Charging? && d.c.backoff.Valid() && 0.0 <= random < 1.0
    ensures var k, row := w.workers[d.o], RecordRetry(w.row);
            && Moved(d, w, v) && v.row == row
            && v.workers[d.o] == if row.retriesUsed > d.c.limits.maxRunRetries then k.(pc := FailedWith(k, k.usage, StepFailed))
               else k.(pc := Asking(k.pc.attempt), granted := k.granted + 1, requests := k.requests + 1)
  {
    v := Apply(d.c, w, Charge(d.o, random));
    Move(d, w, Charge(d.o, random));
  }

  lemma GivesUp(d: Driver, w: World, why: Abort) returns (v: World)
    requires d.o in w.workers && w.workers[d.o].pc.Asking?
    ensures var k := w.workers[d.o];
            && Moved(d, w, v) && v.row == w.row
            && v.workers[d.o] == k.(pc := match why
                                        case ToolInFlight => Pausing
                                        case Review => FailedWith(k, k.usage, NeedsReview)
                                        case ToolBug => FailedWith(k, k.usage, ToolFailed))
  {
    v := Apply(d.c, w, GiveUp(d.o, why));
    Move(d, w, GiveUp(d.o, why));
  }

  lemma Answers(d: Driver, w: World, r: Response, results: seq<Block>, records: seq<ToolCallRecord>) returns (v: World)
    requires d.o in w.workers && w.workers[d.o].pc.Asking? && |records| == |results|
    requires if r.stop.ToolUse? then RunMachine.Answers(r.content, results) else results == []
    requires d.says(Saying(w.workers[d.o], r, results, records))
    ensures Moved(d, w, v) && v.row == w.row
    ensures v.workers[d.o] == Answered(w.workers[d.o], r, results, records)
  {
    var e := Answer(d.o, r, results, records);
    v := Apply(d.c, w, e);
    Move(d, w, e);
  }

  lemma Commits(d: Driver, w: World) returns (v: World)
    requires d.o in w.workers && w.workers[d.o].pc.Committing?
    ensures var k, tried := w.workers[d.o], CommitStep(w.row, w.workers[d.o].pc.step, w.workers[d.o].pending);
            && Moved(d, w, v)
            && v.row == (if tried.Ok? then tried.value else w.row)
            && SameLocals(k, v.workers[d.o]) && v.workers[d.o].pc == Renewing(k.pc.step, k.pc.answer)
  {
    v := Apply(d.c, w, Commit(d.o));
    Move(d, w, Commit(d.o));
  }

  lemma Renews(d: Driver, w: World) returns (v: World)
    requires d.o in w.workers && w.workers[d.o].pc.Renewing?
    ensures var k, held := w.workers[d.o], Renewable(w.row, w.now, d.o);
            && Moved(d, w, v)
            && v.row == (if held then Renewed(w.row, w.now, d.o, d.c.ttl) else w.row)
            && (if held then SameLocals(AfterRenewal(k), v.workers[d.o]) && v.workers[d.o].pc == AfterRenewal(k).pc
                else SameLocals(k, v.workers[d.o]) && v.workers[d.o].pc.Stopped?)
  {
    v := Apply(d.c, w, Renew(d.o));
    Move(d, w, Renew(d.o));
  }

  lemma Finishes(d: Driver, w: World) returns (v: World)
    requires d.o in w.workers && w.workers[d.o].pc.Finishing?
    ensures Moved(d, w, v) && v.row == RunStore.Finish(w.row, w.workers[d.o].pc.outcome)
    ensures SameLocals(w.workers[d.o], v.workers[d.o]) && v.workers[d.o].pc.Stopped?
  {
    v := Apply(d.c, w, RunMachine.Finish(d.o));
    Move(d, w, RunMachine.Finish(d.o));
  }

  lemma Releases(d: Driver, w: World) returns (v: World)
    requires At(w, d.o, Pausing)
    ensures Moved(d, w, v) && v.row == Released(w.row, d.o, Paused)
    ensures SameLocals(w.workers[d.o], v.workers[d.o]) && v.workers[d.o].pc.Stopped?
  {
    v := Apply(d.c, w, Release(d.o));
    Move(d, w, Release(d.o));
  }

  lemma Crashes(d: Driver, w: World) returns (v: World)
    requires d.o in w.workers
    ensures Moved(d, w, v) && v.row == w.row
    ensures SameLocals(w.workers[d.o], v.workers[d.o]) && v.workers[d.o].pc.Stopped?
  {
    v := Apply(d.c, w, Crash(d.o));
    Move(d, w, Crash(d.o));
  }

  /** All that a `run` call keeps in variables, and where it loaded from. */
  predicate SameWork(k: Worker, l: Worker) {
    && k.messages == l.messages && k.pending == l.pending && k.usage == l.usage && k.steps == l.steps
    && k.stepsAtLoad == l.stepsAtLoad && k.retriesAtLoad == l.retriesAtLoad
  }

  predicate SameLocals(k: Worker, l: Worker) { SameWork(k, l) && k.requests == l.requests }

  // --- States a run can reach --------------------------------------------------------

  ghost predicate KeptByAll(c: Config, p: World -> bool) {
    forall w, e :: p(w) && Enabled(c, w, e) ==> p(Apply(c, w, e))
  }

  /** `w` has every property of a new run that no event takes away (`ReachedByEvents`). */
  ghost predicate Reached(c: Config, w: World) {
    forall p: World -> bool :: p(Start(c)) && KeptByAll(c, p) ==> p(w)
  }

  ghost predicate Ran(c: Config, es: seq<Event>, w: World) { CanRun(c, Start(c), es) && Run(c, Start(c), es) == w }

  lemma {:induction false} PropertyHoldsOfAll(c: Config, w: World, es: seq<Event>, p: World -> bool)
    requires CanRun(c, w, es) && p(w) && KeptByAll(c, p)
    ensures p(Run(c, w, es))
    decreases |es|
  {
    if |es| > 0 { PropertyHoldsOfAll(c, Apply(c, w, es[0]), es[1..], p); }
  }

  lemma ReachedByEvents(c: Config, w: World)
    ensures Reached(c, w) <==> exists es :: Ran(c, es, w)
  {
    var p := (u: World) => exists es :: Ran(c, es, u);
    assert KeptByAll(c, p) by {
      forall u, e | p(u) && Enabled(c, u, e) ensures p(Apply(c, u, e)) {
        var es :| Ran(c, es, u);
        EventSnoc(c, Start(c), es, e);
        assert Ran(c, es + [e], Apply(c, u, e));
      }
    }
    assert p(Start(c)) by { assert Ran(c, [], Start(c)); }
    if exists es :: Ran(c, es, w) {
      var es :| Ran(c, es, w);
      forall q: World -> bool | q(Start(c)) && KeptByAll(c, q) ensures q(w) {
        PropertyHoldsOfAll(c, Start(c), es, q);
      }
    } else {
      assert !p(w);
    }
  }

  lemma StaysReached(d: Driver, w: World, v: World)
    requires Reached(d.c, w) && Follows(d, w, v)
    ensures Reached(d.c, v)
  {
    forall p: World -> bool | p(Start(d.c)) && KeptByAll(d.c, p) ensures p(v) {
      assert p(w) && KeptBy(d, p);
    }
  }

  lemma ReachedInv(c: Config, w: World)
    requires Reached(c, w)
    ensures Inv(c, w)
  {
    ReachedByEvents(c, w);
    var es :| Ran(c, es, w);
    InvStart(c);
    InvRun(c, Start(c), es);
  }

  /** What is left of an allowance. */
  function Left(allowed: int, used: nat): nat { if allowed <= used then 0 else allowed - used }

  lemma ReachedBound(c: Config, w: World, o: Owner)
    requires Reached(c, w) && o in w.workers
    ensures var k := w.workers[o];
            k.requests <= Left(c.limits.maxSteps, k.stepsAtLoad) + Left(c.limits.maxRunRetries, k.retriesAtLoad)
  {
    ReachedByEvents(c, w);
    var es :| Ran(c, es, w);
    RequestsAreBounded(c, es, o);
  }

  lemma HeadCounts(c: Config, w: World, o: Owner)
    requires Reached(c, w) && At(w, o, Head)
    ensures w.workers[o].usage.steps == |w.workers[o].steps| && w.row.limits.AsLoaded() == c.limits
  {
    ReachedInv(c, w);
    assert WorkerOk(c, |w.row.steps|, w.workers[o]);
  }

  lemma ReachedQuery(c: Config, w: World)
    requires Reached(c, w)
    ensures w.row.query == c.query
  {
    var p := (u: World) => u.row.query == c.query;
    assert p(Start(c)) && KeptByAll(c, p);
    assert p(w);
  }

  /** What a load gives a worker whose run is in a state it can reach. */
  lemma LoadCounts(c: Config, w: World)
    requires Reached(c, w) && Load(w.row).Ok?
    ensures w.row.limits.AsLoaded() == c.limits && w.row.query == c.query
    ensures Load(w.row).value.steps == w.row.steps
  {
    ReachedInv(c, w);
    ReachedQuery(c, w);
    LoadReads(c, w.row, w.batches);
  }

  /** A run's stored messages, if it has any, open with its question; they are none if it has no step. */
  lemma LoadOpens(c: Config, w: World)
    requires Reached(c, w) && Load(w.row).Ok?
    ensures var ms := Load(w.row).value.messages;
            && (ms == [] <==> w.row.steps == [])
            && (ms != [] ==> ms[0] == Message(User, [TextBlock(w.row.query)]))
  {
    ReachedInv(c, w);
    ReachedQuery(c, w);
    LoadReads(c, w.row, w.batches);
    if w.row.steps != [] {
      OpeningOnlyFirst(c, w.row.steps, w.batches);
      OpeningReadBack(Flatten(w.batches), c.query);
    }
  }

  lemma OpeningReadBack(ms: seq<Message>, query: Text)
    requires |ms| > 0 && ms[0] == Message(User, [TextBlock(query)]) && AllFromWire(AllToWire(ms)).Ok?
    ensures |AllFromWire(AllToWire(ms)).value| > 0 && AllFromWire(AllToWire(ms)).value[0] == ms[0]
  {
    BlocksRoundTrip(ms[0].content);
    assert AllToWire(ms)[0] == ToWire(ms[0]);
  }

  predicate AllTools(steps: seq<StepRecord>) { forall s | s in steps :: s.stop.ToolUse? }

  /** What a worker alone would send from the head of the loop is a well-formed request. */
  lemma HeadIsWellFormed(d: Driver, w: World, v: World)
    requires Follows(d, w, v) && Keeps(d) && Solo(d.c, w, d.o)
    requires At(v, d.o, Head) && AllTools(v.workers[d.o].steps)
    ensures WellFormedRequest(d.c, v.workers[d.o].messages)
  {
    StaysSolo(d, w, v);
    var k := v.workers[d.o];
    assert Agrees(d.c, v.row, Flatten(v.batches), k) && WorkerOk(d.c, |v.row.steps|, k);
    RequestOf(d.c, v.row, v.batches, k);
  }
}
