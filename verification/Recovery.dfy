/**
 * No run is ever stuck: whatever was lost, a resume can bring it to an end; and by
 * `CrashTransparency` that end is the uninterrupted one unless the run was cut short.
 */
module Recovery {
  import opened RunState
  import opened RunStore
  import RunMachine
  import opened Idempotency
  import opened RunSafety
  import opened SoloRun
  import opened DurableRun
  import opened CrashTransparency

  // --- Continuations with one live worker --------------------------------------------

  ghost predicate KeptAlone(a: Agent, p: World -> bool) {
    forall w, e :: p(w) && Enabled(a, w, e) && Alone(Apply(a, w, e).run) ==> p(Apply(a, w, e))
  }

  /** Some schedule leads from `w` to `v`, one live worker at a time (`ReachesByEvents`). */
  ghost predicate Reaches(a: Agent, w: World, v: World) {
    forall p: World -> bool :: p(w) && KeptAlone(a, p) ==> p(v)
  }

  ghost predicate Scheduled(a: Agent, w: World, es: seq<Event>, v: World) {
    CanRun(a, w, es) && OneAtATime(a, w, es) && Run(a, w, es) == v
  }

  lemma ReachesByEvents(a: Agent, w: World, v: World)
    requires Alone(w.run) && Reaches(a, w, v)
    ensures exists es :: Scheduled(a, w, es, v)
  {
    var p := (u: World) => exists es :: Scheduled(a, w, es, u);
    assert KeptAlone(a, p) by {
      forall u, e | p(u) && Enabled(a, u, e) && Alone(Apply(a, u, e).run) ensures p(Apply(a, u, e)) {
        var es :| Scheduled(a, w, es, u);
        ScheduleSnoc(a, w, es, e);
        assert Scheduled(a, w, es + [e], Apply(a, u, e));
      }
    }
    assert p(w) by { assert Scheduled(a, w, [], w); }
  }

  lemma Stays(a: Agent, w: World)
    ensures Reaches(a, w, w)
  {
  }

  lemma Joins(a: Agent, u: World, w: World, v: World)
    requires Reaches(a, u, w) && Reaches(a, w, v)
    ensures Reaches(a, u, v)
  {
  }

  lemma Takes(a: Agent, w: World, e: Event)
    requires Enabled(a, w, e) && Alone(Apply(a, w, e).run)
    ensures Reaches(a, w, Apply(a, w, e))
  {
  }

  // --- A worker with the run to itself -----------------------------------------------

  ghost predicate Mine(a: Agent, w: World, o: Owner) {
    CrashTransparency.Inv(a, w) && Only(w.run, o) && o in w.run.workers
  }

  /** `o` has the run to itself and its lease is live. */
  ghost predicate Holding(a: Agent, w: World, o: Owner) {
    Mine(a, w, o) && Renewable(w.run.row, w.run.now, o) && w.run.row.status.Running?
  }

  // --- Inside an attempt -------------------------------------------------------------

  ghost predicate Within(a: Agent, w: World) { InsideOk(a, w) && Alone(w.run) }

  predicate SameRun(w: World, v: World) { v.run == w.run && v.cutShort == w.cutShort }

  /** A step inside an attempt, or in a worker process. */
  lemma StepsInside(a: Agent, w: World, e: Event)
    requires Transparent(a) && Within(a, w) && Enabled(a, w, e) && !e.Store? && !e.Turn? && !e.TimeUp?
    ensures Reaches(a, w, Apply(a, w, e)) && Within(a, Apply(a, w, e)) && SameRun(w, Apply(a, w, e))
  {
    InsideStep(a, w, e);
    Takes(a, w, e);
  }

  /** One more call answered, and nothing else about the attempt changed. */
  predicate AnsweredOne(w: World, v: World, o: Owner) {
    && SameRun(w, v) && o in w.talks && o in v.talks && v.talks[o].response == w.talks[o].response
    && |v.talks[o].results| == |w.talks[o].results| + 1 && v.talks[o].stage.Idle?
  }

  lemma RejectsOne(a: Agent, w: World, o: Owner) returns (v: World)
    requires Transparent(a) && Within(a, w) && Enabled(a, w, Reject(o))
    ensures Reaches(a, w, v) && Within(a, v) && AnsweredOne(w, v, o)
  {
    v := Apply(a, w, Reject(o));
    StepsInside(a, w, Reject(o));
  }

  /** An answer the ledger gives is taken; a stage is entered. */
  lemma ReactsTo(a: Agent, w: World, o: Owner, r: Reaction)
    requires IsAsking(w, o) && o in w.talks && |w.talks[o].results| < |w.talks[o].Uses()|
    requires r.Stay? || (r.Told? && !r.outcome.status.NeedsReview?)
    ensures var v := React(a, w, o, r);
            && SameRun(w, v)
            && (if r.Stay? then v.talks == w.talks[o := w.talks[o].(stage := r.stage)] else AnsweredOne(w, v, o))
  {
  }

  lemma Begins(a: Agent, w: World, o: Owner)
    requires Transparent(a) && InsideOk(a, w) && Enabled(a, w, Begin(o))
    ensures var v := Apply(a, w, Begin(o));
            AnsweredOne(w, v, o) || (v.run == w.run && v.talks == w.talks[o := w.talks[o].(stage := Executing)])
  {
    BeginIsExpected(a, w, o);
    BeginReacts(a, w, o);
  }

  lemma BeginIsExpected(a: Agent, w: World, o: Owner)
    requires Transparent(a) && InsideOk(a, w) && Enabled(a, w, Begin(o))
    ensures Expected(a, Current(w, o), ClaimOf(w.rows, Current(w, o), a.tool(Current(w, o)).effect).1)
  {
    ClaimIsExpected(a, w.rows, w.queued, Current(w, o));
  }

  lemma BeginReacts(a: Agent, w: World, o: Owner)
    requires Enabled(a, w, Begin(o))
    requires Expected(a, Current(w, o), ClaimOf(w.rows, Current(w, o), a.tool(Current(w, o)).effect).1)
    ensures var v := Apply(a, w, Begin(o));
            AnsweredOne(w, v, o) || (v.run == w.run && v.talks == w.talks[o := w.talks[o].(stage := Executing)])
  {
    var (rows, r) := ClaimOf(w.rows, Current(w, o), a.tool(Current(w, o)).effect);
    ReactsTo(a, w.(rows := rows), o, r);
  }

  lemma Records(a: Agent, w: World, o: Owner)
    requires Transparent(a) && Enabled(a, w, Record(o))
    ensures AnsweredOne(w, Apply(a, w, Record(o)), o)
  {
  }

  lemma Polls(a: Agent, w: World, o: Owner)
    requires Transparent(a) && Enabled(a, w, Poll(o)) && a.tool(Current(w, o)).Usable?
    requires Current(w, o) in w.rows && w.rows[Current(w, o)] == RecordOf(a.tool(Current(w, o)).does)
    ensures AnsweredOne(w, Apply(a, w, Poll(o)), o)
  {
  }

  lemma RunsOne(a: Agent, w: World, o: Owner) returns (v: World)
    requires Transparent(a) && Within(a, w) && Enabled(a, w, Begin(o))
    ensures Reaches(a, w, v) && Within(a, v) && AnsweredOne(w, v, o)
  {
    v := Apply(a, w, Begin(o));
    StepsInside(a, w, Begin(o));
    Begins(a, w, o);
    if v.talks[o].stage.Executing? {
      var u := v;
      v := Apply(a, u, Record(o));
      StepsInside(a, u, Record(o));
      Records(a, u, o);
      Joins(a, w, u, v);
    }
  }

  lemma Settles(a: Agent, w: World, id: CallId)
    requires Enabled(a, w, Settle(id))
    ensures Apply(a, w, Settle(id)) == w.(rows := w.rows[id := RecordOf(a.tool(id).does)])
  {
  }

  /** Waiting on a row that is there: its worker finishes, and the next poll finds it. */
  lemma CollectsOne(a: Agent, w: World, o: Owner) returns (v: World)
    requires Transparent(a) && Within(a, w) && Working(w, o, Waiting) && a.tool(Current(w, o)).Usable?
    requires Current(w, o) in w.rows
    ensures Reaches(a, w, v) && Within(a, v) && AnsweredOne(w, v, o)
  {
    var id := Current(w, o);
    var u := Apply(a, w, Settle(id));
    StepsInside(a, w, Settle(id));
    Settles(a, w, id);
    v := Apply(a, u, Poll(o));
    StepsInside(a, u, Poll(o));
    Polls(a, u, o);
    Joins(a, w, u, v);
  }

  /** Waiting on a call that was queued: a worker picks it up first if none has. */
  lemma WaitsForOne(a: Agent, w: World, o: Owner) returns (v: World)
    requires Transparent(a) && Within(a, w) && Working(w, o, Waiting) && a.tool(Current(w, o)).Usable?
    requires Current(w, o) in w.rows || Current(w, o) in w.queued
    ensures Reaches(a, w, v) && Within(a, v) && AnsweredOne(w, v, o)
  {
    var id, u := Current(w, o), w;
    Stays(a, w);
    if id !in w.rows {
      u := Apply(a, w, Deliver(id));
      StepsInside(a, w, Deliver(id));
    }
    v := CollectsOne(a, u, o);
    Joins(a, w, u, v);
  }

  lemma Looks(a: Agent, w: World, o: Owner)
    requires Transparent(a) && InsideOk(a, w) && Enabled(a, w, Look(o))
    ensures var v := Apply(a, w, Look(o));
            if Current(w, o) in w.rows && w.rows[Current(w, o)].IsTerminal() then AnsweredOne(w, v, o)
            else v == Staged(w, o, if Current(w, o) in w.rows then Waiting else Enqueueing)
  {
    LookIsExpected(a, w.rows, w.queued, Current(w, o), Enqueueing);
    ReactsTo(a, w, o, LookOf(w.rows, Current(w, o), Enqueueing));
  }

  lemma DispatchesOne(a: Agent, w: World, o: Owner) returns (v: World)
    requires Transparent(a) && Within(a, w) && Enabled(a, w, Look(o))
    ensures Reaches(a, w, v) && Within(a, v) && AnsweredOne(w, v, o)
  {
    var u := Apply(a, w, Look(o));
    StepsInside(a, w, Look(o));
    Looks(a, w, o);
    v := u;
    if u.talks[o].stage.Enqueueing? {
      var t := Apply(a, u, Enqueue(o));
      StepsInside(a, u, Enqueue(o));
      Joins(a, w, u, t);
      v := WaitsForOne(a, t, o);
      Joins(a, w, t, v);
    } else if u.talks[o].stage.Waiting? {
      v := WaitsForOne(a, u, o);
      Joins(a, w, u, v);
    }
  }

  lemma AnswersOne(a: Agent, w: World, o: Owner) returns (v: World)
    requires Transparent(a) && Within(a, w) && Working(w, o, Idle)
    ensures Reaches(a, w, v) && Within(a, v) && AnsweredOne(w, v, o)
  {
    var tool := a.tool(Current(w, o));
    if tool.Unusable? { v := RejectsOne(a, w, o); }
    else if tool.durable { v := DispatchesOne(a, w, o); }
    else { v := RunsOne(a, w, o); }
  }

  lemma {:induction false} AnswersAll(a: Agent, w: World, o: Owner) returns (v: World)
    requires Transparent(a) && Within(a, w) && IsAsking(w, o) && o in w.talks && w.talks[o].stage.Idle?
    ensures Reaches(a, w, v) && Within(a, v) && SameRun(w, v) && o in v.talks && v.talks[o].Answered()
    decreases |w.talks[o].Uses()| - |w.talks[o].results|
  {
    if w.talks[o].Answered() {
      v := w;
      Stays(a, w);
    } else {
      assert TalkOk(a, w.run.workers[o], w.talks[o]);
      var u := AnswersOne(a, w, o);
      v := AnswersAll(a, u, o);
      Joins(a, w, u, v);
    }
  }

  // --- Between attempts --------------------------------------------------------------

  lemma OnlyIsAlone(w: RunMachine.World, o: Owner)
    requires Only(w, o)
    ensures Alone(w)
  {
  }

  /** A worker's own step leaves it the only one. */
  lemma OnlyMoves(c: RunMachine.Config, w: RunMachine.World, e: RunMachine.Event, o: Owner)
    requires RunMachine.Enabled(c, w, e) && !e.Tick? && e.o == o && Only(w, o)
    ensures var v := RunMachine.Apply(c, w, e); Only(v, o) && o in v.workers
  {
    RunMachine.OneMoves(c, w, e);
  }

  lemma StoreTakes(a: Agent, w: World, e: RunMachine.Event, o: Owner)
    requires Transparent(a) && Mine(a, w, o) && Enabled(a, w, Store(e)) && !e.Tick? && e.o == o
    ensures Reaches(a, w, Apply(a, w, Store(e))) && Mine(a, Apply(a, w, Store(e)), o)
  {
    OnlyMoves(a.config, w.run, e, o);
    OnlyIsAlone(w.run, o);
    OnlyIsAlone(Apply(a, w, Store(e)).run, o);
    StoreStep(a, w, e);
    Takes(a, w, Store(e));
  }

  lemma TurnTakes(a: Agent, w: World, o: Owner)
    requires Transparent(a) && Mine(a, w, o) && Enabled(a, w, Turn(o))
    ensures Reaches(a, w, Apply(a, w, Turn(o))) && Mine(a, Apply(a, w, Turn(o)), o)
  {
    TurnStep(a, w, o);
    TurnKeepsOnly(a, w, o);
    Takes(a, w, Turn(o));
  }

  lemma TurnKeepsOnly(a: Agent, w: World, o: Owner)
    requires Transparent(a) && InsideOk(a, w) && Only(w.run, o) && Enabled(a, w, Turn(o))
    ensures Only(Apply(a, w, Turn(o)).run, o) && Alone(Apply(a, w, Turn(o)).run) && Alone(w.run)
  {
    var t := w.talks[o];
    TurnIsAnswer(a, w, o);
    OnlyMoves(a.config, w.run, RunMachine.Answer(o, t.response, t.results, t.records), o);
    OnlyIsAlone(w.run, o);
    OnlyIsAlone(Apply(a, w, Turn(o)).run, o);
  }

  lemma Checks(a: Agent, w: World, o: Owner) returns (v: World)
    requires Transparent(a) && Holding(a, w, o) && RunMachine.At(w.run, o, RunMachine.Head)
    ensures Reaches(a, w, v) && v.cutShort == w.cutShort && Holding(a, v, o) && v.talks == w.talks
    ensures v.run.row == w.run.row && v.run.workers[o] == RunMachine.Checked(a.config, w.run.workers[o])
  {
    v := Apply(a, w, Store(RunMachine.Check(o)));
    StoreTakes(a, w, RunMachine.Check(o), o);
  }

  lemma Concludes(a: Agent, w: World, o: Owner) returns (v: World)
    requires Transparent(a) && Mine(a, w, o) && w.run.workers[o].pc.Finishing?
    requires w.run.workers[o].pc.outcome.status.IsTerminal()
    ensures Reaches(a, w, v) && v.cutShort == w.cutShort && v.run.row.status.IsTerminal() && Alone(v.run)
  {
    v := Apply(a, w, Store(RunMachine.Finish(o)));
    StoreTakes(a, w, RunMachine.Finish(o), o);
  }

  lemma CommitsOne(a: Agent, w: World, o: Owner) returns (v: World)
    requires Transparent(a) && Holding(a, w, o) && w.run.workers[o].pc.Committing?
    ensures Reaches(a, w, v) && v.cutShort == w.cutShort && Holding(a, v, o)
    ensures |v.run.row.steps| == |w.run.row.steps| + 1 && v.run.workers[o].pc.Renewing?
  {
    v := Apply(a, w, Store(RunMachine.Commit(o)));
    StoreTakes(a, w, RunMachine.Commit(o), o);
    CommittedAgrees(a.config, w.run.row, w.run.batches, w.run.workers[o]);
  }

  lemma RenewHolds(c: RunMachine.Config, w: RunMachine.World, o: Owner)
    requires o in w.workers && w.workers[o].pc.Renewing? && Renewable(w.row, w.now, o) && c.ttl > 0
    ensures var v := RunMachine.RenewEffect(c, w, o);
            && v.row == Renewed(w.row, w.now, o, c.ttl) && v.now == w.now && Renewable(v.row, v.now, o)
            && v.workers[o].pc == RunMachine.AfterRenewal(w.workers[o]).pc
  {
  }

  lemma RenewsOne(a: Agent, w: World, o: Owner) returns (v: World)
    requires Transparent(a) && Holding(a, w, o) && w.run.workers[o].pc.Renewing? && a.config.ttl > 0
    ensures Reaches(a, w, v) && v.cutShort == w.cutShort && Holding(a, v, o) && v.run.row.steps == w.run.row.steps
    ensures v.run.workers[o].pc == RunMachine.AfterRenewal(w.run.workers[o]).pc
  {
    v := Apply(a, w, Store(RunMachine.Renew(o)));
    StoreTakes(a, w, RunMachine.Renew(o), o);
    RenewHolds(a.config, w.run, o);
  }

  /** Ready to commit, or failed. */
  predicate Played(w: World, o: Owner) {
    o in w.run.workers && IsPlayed(w.run.workers[o].pc)
  }

  predicate IsPlayed(pc: RunMachine.Pc) {
    pc.Committing? || (pc.Finishing? && pc.outcome.status.IsTerminal())
  }

  lemma AnsweredIsPlayed(k: RunMachine.Worker, t: Talk)
    requires k.pc.Asking?
    ensures IsPlayed(RunMachine.Answered(k, t.response, t.results, t.records).pc)
  {
  }

  lemma TakesTurn(a: Agent, w: World, o: Owner) returns (v: World)
    requires Transparent(a) && Holding(a, w, o) && IsAsking(w, o) && o in w.talks && w.talks[o].Answered()
    ensures Reaches(a, w, v) && v.cutShort == w.cutShort && Holding(a, v, o) && v.run.row == w.run.row
    ensures Played(v, o)
  {
    v := Apply(a, w, Turn(o));
    TurnTakes(a, w, o);
    AnsweredIsPlayed(w.run.workers[o], w.talks[o]);
  }

  lemma AsksAndAnswers(a: Agent, w: World, o: Owner) returns (v: World)
    requires Transparent(a) && Within(a, w) && IsAsking(w, o) && o !in w.talks
    ensures Reaches(a, w, v) && Within(a, v) && SameRun(w, v) && o in v.talks && v.talks[o].Answered()
  {
    var u := Apply(a, w, Respond(o));
    StepsInside(a, w, Respond(o));
    v := AnswersAll(a, u, o);
    Joins(a, w, u, v);
  }

  lemma MineIsWithin(a: Agent, w: World, o: Owner)
    requires Mine(a, w, o)
    ensures Within(a, w)
  {
  }

  lemma InsideIsMine(a: Agent, w: World, v: World, o: Owner)
    requires Holding(a, w, o) && Within(a, v) && SameRun(w, v)
    ensures Holding(a, v, o)
  {
  }

  lemma AnswersStep(a: Agent, w: World, o: Owner) returns (v: World)
    requires Transparent(a) && Holding(a, w, o) && IsAsking(w, o) && o !in w.talks
    ensures Reaches(a, w, v) && Holding(a, v, o) && SameRun(w, v) && o in v.talks && v.talks[o].Answered()
  {
    MineIsWithin(a, w, o);
    v := AsksAndAnswers(a, w, o);
    InsideIsMine(a, w, v, o);
  }

  /** Asked, answered and every call answered: the step is ready to commit or the run has failed. */
  lemma PlaysStep(a: Agent, w: World, o: Owner) returns (v: World)
    requires Transparent(a) && Holding(a, w, o) && w.run.workers[o].pc == RunMachine.Asking(1) && o !in w.talks
    ensures Reaches(a, w, v) && Holding(a, v, o) && v.cutShort == w.cutShort && v.run.row == w.run.row
    ensures Played(v, o)
  {
    var t := AnswersStep(a, w, o);
    v := TakesTurn(a, t, o);
    Joins(a, w, t, v);
  }

  ghost predicate Ended(w: World) { w.run.row.status.IsTerminal() && Alone(w.run) }

  lemma CommitsStep(a: Agent, w: World, o: Owner) returns (v: World)
    requires Transparent(a) && Holding(a, w, o) && w.run.workers[o].pc.Committing? && a.config.ttl > 0
    ensures Reaches(a, w, v) && v.cutShort == w.cutShort
    ensures Ended(v) || (Holding(a, v, o) && RunMachine.At(v.run, o, RunMachine.Head)
                         && |v.run.row.steps| == |w.run.row.steps| + 1)
  {
    var t := CommitsOne(a, w, o);
    v := RenewsOne(a, t, o);
    Joins(a, w, t, v);
    if v.run.workers[o].pc.Finishing? {
      var u := v;
      v := Concludes(a, u, o);
      Joins(a, w, u, v);
    }
  }

  lemma HeadIsQuiet(a: Agent, w: World, o: Owner)
    requires Holding(a, w, o) && RunMachine.At(w.run, o, RunMachine.Head)
    ensures o !in w.talks && w.run.workers[o].usage.steps == |w.run.row.steps|
  {
    SpentSteps(w.run.row.steps);
    assert Agrees(a.config, w.run.row, Flatten(w.run.batches), w.run.workers[o]);
  }

  /** From the head of the loop the run can be driven to its end. */
  lemma {:induction false} HeadEnds(a: Agent, w: World, o: Owner) returns (v: World)
    requires Transparent(a) && Holding(a, w, o) && RunMachine.At(w.run, o, RunMachine.Head) && a.config.ttl > 0
    ensures Reaches(a, w, v) && v.cutShort == w.cutShort && Ended(v)
    decreases a.config.limits.maxSteps - |w.run.row.steps|
  {
    HeadIsQuiet(a, w, o);
    var c := Checks(a, w, o);
    if !MayStep(a.config.limits, w.run.workers[o].usage) {
      v := Concludes(a, c, o);
      Joins(a, w, c, v);
    } else {
      var t := PlaysStep(a, c, o);
      Joins(a, w, c, t);
      var u;
      if t.run.workers[o].pc.Finishing? { u := Concludes(a, t, o); } else { u := CommitsStep(a, t, o); }
      Joins(a, w, t, u);
      v := u;
      if !Ended(u) {
        v := HeadEnds(a, u, o);
        Joins(a, w, u, v);
      }
    }
  }

  // --- Taking a run up again ---------------------------------------------------------

  lemma {:induction false} LongerThanAll(names: set<Owner>) returns (n: nat)
    ensures forall o | o in names :: |o| < n
    decreases |names|
  {
    if names == {} {
      n := 0;
    } else {
      var o :| o in names;
      var m := LongerThanAll(names - {o});
      n := if |o| < m then m else |o| + 1;
    }
  }

  lemma FreshOwner(names: set<Owner>) returns (o: Owner)
    ensures o !in names
  {
    var n := LongerThanAll(names);
    o := seq(n, i => 'w');
  }

  predicate AllStopped(w: World) { forall p | p in w.run.workers :: w.run.workers[p].pc.Stopped? }

  /** Some worker is between its final commit and its `finish`. */
  predicate Exposed(w: World) { exists o | o in w.run.workers :: Closing(w.run.workers[o]) }

  /** Whoever is at work dies. */
  lemma StopsAll(a: Agent, w: World) returns (v: World)
    requires Transparent(a) && CrashTransparency.Inv(a, w) && Alone(w.run)
    ensures Reaches(a, w, v) && CrashTransparency.Inv(a, v) && AllStopped(v) && v.run.row == w.run.row
    ensures v.cutShort == (w.cutShort || Exposed(w))
  {
    v := w;
    Stays(a, w);
    if !AllStopped(w) {
      var o :| o in w.run.workers && !w.run.workers[o].pc.Stopped?;
      v := Apply(a, w, Store(RunMachine.Crash(o)));
      StoreTakes(a, w, RunMachine.Crash(o), o);
      assert v.run.workers[o].pc.Stopped?;
    }
  }

  /** The lease, if there is one, runs out. */
  lemma WaitsOut(a: Agent, w: World) returns (v: World)
    requires Transparent(a) && CrashTransparency.Inv(a, w) && AllStopped(w)
    requires !w.run.row.status.IsTerminal()
    ensures Reaches(a, w, v) && v.cutShort == w.cutShort && CrashTransparency.Inv(a, v) && AllStopped(v)
    ensures Claimable(v.run.row, v.run.now) && v.run.row == w.run.row
  {
    var later := if w.run.row.lease.Some? && w.run.row.lease.value.expiresAt >= w.run.now
                 then w.run.row.lease.value.expiresAt + 1 else w.run.now;
    v := Apply(a, w, Store(RunMachine.Tick(later)));
    assert v == w.(run := w.run.(now := later));
    StoreStep(a, w, RunMachine.Tick(later));
    Takes(a, w, Store(RunMachine.Tick(later)));
  }

  lemma ClaimsAndLoads(a: Agent, w: World, o: Owner) returns (v: World)
    requires Transparent(a) && CrashTransparency.Inv(a, w) && AllStopped(w) && a.config.ttl > 0
    requires o !in w.run.workers && Claimable(w.run.row, w.run.now)
    ensures Reaches(a, w, v) && v.cutShort == w.cutShort && Holding(a, v, o) && RunMachine.At(v.run, o, RunMachine.Head)
  {
    var u := Apply(a, w, Store(RunMachine.Claim(o)));
    assert u.run.workers == w.run.workers[o := RunMachine.NEWCOMER];
    StoreStep(a, w, RunMachine.Claim(o));
    Takes(a, w, Store(RunMachine.Claim(o)));
    LoadGivesBack(a.config, u.run);
    v := Apply(a, u, Store(RunMachine.LoadRow(o)));
    StoreTakes(a, u, RunMachine.LoadRow(o), o);
    Joins(a, w, u, v);
  }

  lemma CanEnd(a: Agent, w: World) returns (v: World)
    requires Transparent(a) && CrashTransparency.Inv(a, w) && Alone(w.run) && a.config.ttl > 0
    ensures Reaches(a, w, v) && Ended(v)
    ensures !Exposed(w) ==> v.cutShort == w.cutShort
  {
    if w.run.row.status.IsTerminal() {
      v := w;
      Stays(a, w);
    } else {
      var u := StopsAll(a, w);
      var t := WaitsOut(a, u);
      Joins(a, w, u, t);
      var o := FreshOwner(t.run.workers.Keys);
      var h := ClaimsAndLoads(a, t, o);
      Joins(a, w, t, h);
      v := HeadEnds(a, h, o);
      Joins(a, w, h, v);
    }
  }

  /**
   * Whatever has happened to a run, some schedule brings it to an end, even if every worker
   * there was is lost; and unless it was cut short, or a worker is just now between its final
   * commit and `finish`, to the end the uninterrupted run has.
   */
  lemma NoRunIsStuck(a: Agent, es: seq<Event>) returns (more: seq<Event>)
    requires Transparent(a) && a.config.ttl > 0 && CanRun(a, Start(a), es) && OneAtATime(a, Start(a), es)
    ensures var w := Run(a, Start(a), es);
            && CanRun(a, w, more) && OneAtATime(a, w, more)
            && Run(a, w, more).run.row.status.IsTerminal()
            && (!w.cutShort && !Exposed(w) ==> EndedAs(Run(a, w, more).run.row, Whole(a)))
  {
    var w := Run(a, Start(a), es);
    StartsOnCourse(a);
    InvHolds(a, Start(a), es);
    StaysAlone(a, Start(a), es);
    var v := CanEnd(a, w);
    ReachesByEvents(a, w, v);
    more :| Scheduled(a, w, more, v);
    if !v.cutShort { EndsAsWhole(a, w, more, v); }
  }

  lemma EndsAsWhole(a: Agent, w: World, more: seq<Event>, v: World)
    requires Transparent(a) && CrashTransparency.Inv(a, w) && Scheduled(a, w, more, v)
    requires v.run.row.status.IsTerminal() && !v.cutShort
    ensures EndedAs(v.run.row, Whole(a))
  {
    InvHolds(a, w, more);
    LoadGivesBack(a.config, v.run);
  }

  lemma {:induction false} StaysAlone(a: Agent, w: World, es: seq<Event>)
    requires CanRun(a, w, es) && OneAtATime(a, w, es)
    ensures Alone(Run(a, w, es).run)
    decreases |es|
  {
    if |es| > 0 { StaysAlone(a, Apply(a, w, es[0]), es[1..]); }
  }
}
