/**
 * Loads that come too late. `load` is a transaction of its own after the claim, and neither
 * `run` nor `finish` looks at the status it finds: a worker that loads the row after its
 * final step was committed, even after `finish`, asks the model again, and the run may end
 * as it never would have.
 */
module LateLoad {
  import opened Wrappers
  import opened Messages
  import opened RunState
  import opened RunStore
  import RunMachine
  import opened RunSafety
  import opened SoloRun
  import opened DurableRun
  import opened CrashTransparency
  import CutShort
  import Overlap
  import Recovery

  // --- Schedules, whoever else is at work --------------------------------------------

  ghost predicate Leads(a: Agent, w: World, es: seq<Event>, v: World) {
    CanRun(a, w, es) && Run(a, w, es) == v
  }

  lemma {:induction false} LeadsOn(a: Agent, w: World, es: seq<Event>, u: World, fs: seq<Event>, v: World)
    requires Leads(a, w, es, u) && Leads(a, u, fs, v)
    ensures Leads(a, w, es + fs, v)
    decreases |es|
  {
    if |es| == 0 {
      assert es + fs == fs;
    } else {
      LeadsOn(a, Apply(a, w, es[0]), es[1..], u, fs, v);
      assert (es + fs)[0] == es[0] && (es + fs)[1..] == es[1..] + fs;
    }
  }

  lemma AndThen(a: Agent, w: World, es: seq<Event>, u: World, e: Event) returns (fs: seq<Event>, v: World)
    requires Leads(a, w, es, u) && Enabled(a, u, e)
    ensures fs == es + [e] && v == Apply(a, u, e) && Leads(a, w, fs, v)
  {
    fs, v := es + [e], Apply(a, u, e);
    assert [e][1..] == [] && Leads(a, v, [], v);
    LeadsOn(a, w, es, u, [e], v);
  }

  /** What a lone worker can reach, some schedule leads to. */
  lemma ByItself(a: Agent, w: World, es: seq<Event>, u: World, v: World) returns (fs: seq<Event>)
    requires Leads(a, w, es, u) && Alone(u.run) && Recovery.Reaches(a, u, v)
    ensures Leads(a, w, fs, v)
  {
    Recovery.ReachesByEvents(a, u, v);
    var more :| Recovery.Scheduled(a, u, more, v);
    LeadsOn(a, w, es, u, more, v);
    fs := es + more;
  }

  // --- Steps are never taken back ----------------------------------------------------

  lemma StepsGrow(c: RunMachine.Config, w: RunMachine.World, e: RunMachine.Event)
    requires RunMachine.Enabled(c, w, e)
    ensures w.row.steps <= RunMachine.Apply(c, w, e).row.steps
  {
  }

  lemma StepsGrowOn(a: Agent, w: World, e: Event)
    requires Enabled(a, w, e)
    ensures w.run.row.steps <= Apply(a, w, e).run.row.steps
  {
    if e.Store? { StepsGrow(a.config, w.run, e.e); }
  }

  lemma {:induction false} StepsStay(a: Agent, w: World, es: seq<Event>)
    requires CanRun(a, w, es)
    ensures w.run.row.steps <= Run(a, w, es).run.row.steps
    decreases |es|
  {
    if |es| > 0 {
      StepsGrowOn(a, w, es[0]);
      StepsStay(a, Apply(a, w, es[0]), es[1..]);
    }
  }

  /** A row with more steps than the uninterrupted run takes does not load as its ending. */
  lemma TooManySteps(row: RunRow, end: Ending)
    requires |row.steps| > |end.history.steps|
    ensures !EndedAs(row, end)
  {
    StepsSorted(row.steps);
    assert |StepsInOrder(row.steps)| == |multiset(StepsInOrder(row.steps))| == |multiset(row.steps)| == |row.steps|;
  }

  // --- A late load -------------------------------------------------------------------

  /** What is loaded of a row on the path, closed or not. */
  lemma LoadsAnyway(a: Agent, w: World, p: Owner)
    requires Transparent(a) && Overlap.PathInv(a, w) && RunMachine.At(w.run, p, RunMachine.Loading)
    ensures StableAll(Flatten(w.run.batches))
    ensures var row, k := w.run.row, RunMachine.Loaded(a.config, w.run.row, w.run.workers[p]);
            && k.pc.Head? && k.usage == Spent(row.steps) && Agrees(a.config, row, Flatten(w.run.batches), k)
  {
    Overlap.NthStable(a, |w.run.row.steps|);
    LoadedAgrees(a.config, w.run.row, w.run.batches, w.run.workers[p]);
    LoadReads(a.config, w.run.row, w.run.batches);
  }

  /** With nothing left to spend, whoever loads the row fails the run, whatever its status. */
  lemma FailsAtOnce(a: Agent, w: World, p: Owner) returns (es: seq<Event>, v: World)
    requires RunMachine.At(w.run, p, RunMachine.Head) && !MayStep(a.config.limits, w.run.workers[p].usage)
    ensures es == [Store(RunMachine.Check(p)), Store(RunMachine.Finish(p))] && Leads(a, w, es, v)
    ensures v.run.row.status.Failed? && v.cutShort == w.cutShort
  {
    assert Leads(a, w, [], w);
    es, v := AndThen(a, w, [], w, Store(RunMachine.Check(p)));
    es, v := AndThen(a, w, es, v, Store(RunMachine.Finish(p)));
  }

  lemma InTimeIsOnPath(a: Agent, es: seq<Event>)
    requires Transparent(a) && CanRun(a, Start(a), es) && Overlap.LoadsInTime(a, Start(a), es)
    ensures Overlap.PathInv(a, Run(a, Start(a), es))
  {
    Overlap.StartsOnPath(a);
    Overlap.PathHolds(a, Start(a), es);
  }

  // --- Everyone else is lost ---------------------------------------------------------

  function Others(w: RunMachine.World, p: Owner): set<Owner> {
    set q | q in w.workers && q != p && !w.workers[q].pc.Stopped?
  }

  lemma CrashFrame(c: RunMachine.Config, w: RunMachine.World, q: Owner)
    requires q in w.workers
    ensures RunMachine.Apply(c, w, RunMachine.Crash(q))
            == w.(workers := w.workers[q := w.workers[q].(pc := RunMachine.Stopped)])
  {
  }

  ghost predicate SameBut(w: World, v: World, p: Owner) {
    && v.run.row == w.run.row && v.run.batches == w.run.batches
    && p in w.run.workers && p in v.run.workers && v.run.workers[p] == w.run.workers[p]
  }

  lemma CrashesOne(a: Agent, w: World, p: Owner, q: Owner) returns (v: World)
    requires RunSafety.Inv(a.config, w.run) && InsideOk(a, w) && p in w.run.workers && q in Others(w.run, p)
    ensures Enabled(a, w, Store(RunMachine.Crash(q))) && v == Apply(a, w, Store(RunMachine.Crash(q)))
    ensures RunSafety.Inv(a.config, v.run) && InsideOk(a, v) && SameBut(w, v, p)
    ensures Others(v.run, p) == Others(w.run, p) - {q}
  {
    v := Apply(a, w, Store(RunMachine.Crash(q)));
    InvStep(a.config, w.run, RunMachine.Crash(q));
    StoreKeepsInside(a, w, RunMachine.Crash(q));
    CrashFrame(a.config, w.run, q);
  }

  lemma {:induction false} CrashesOthers(a: Agent, w: World, p: Owner) returns (es: seq<Event>, v: World)
    requires RunSafety.Inv(a.config, w.run) && InsideOk(a, w) && p in w.run.workers
    ensures Leads(a, w, es, v) && SameBut(w, v, p) && Only(v.run, p)
    ensures RunSafety.Inv(a.config, v.run) && InsideOk(a, v)
    decreases |Others(w.run, p)|
  {
    es, v := [], w;
    if Others(w.run, p) != {} {
      var q :| q in Others(w.run, p);
      var u := CrashesOne(a, w, p, q);
      var fs;
      fs, v := CrashesOthers(a, u, p);
      assert Leads(a, u, [], u);
      es := [Store(RunMachine.Crash(q))];
      assert es[1..] == [] && Leads(a, w, es, u);
      LeadsOn(a, w, es, u, fs, v);
      es := es + fs;
    } else {
      assert Leads(a, w, [], w);
      forall r | r in w.run.workers && r != p ensures w.run.workers[r].pc.Stopped? {
        assert r !in Others(w.run, p);
      }
    }
  }

  // --- One step too many -------------------------------------------------------------

  /** The same state with its mark of having been cut short, which no step looks at. */
  function Marked(w: World): World { w.(cutShort := true) }

  lemma StepsAreBlind(a: Agent, w: World, e: Event)
    ensures Enabled(a, w, e) <==> Enabled(a, Marked(w), e)
    ensures Enabled(a, w, e) ==> Apply(a, Marked(w), e) == Marked(Apply(a, w, e))
  {
  }

  lemma {:induction false} RunsAreBlind(a: Agent, w: World, es: seq<Event>)
    requires CanRun(a, Marked(w), es)
    ensures CanRun(a, w, es) && Run(a, Marked(w), es) == Marked(Run(a, w, es))
    decreases |es|
  {
    if |es| > 0 {
      StepsAreBlind(a, w, es[0]);
      RunsAreBlind(a, Apply(a, w, es[0]), es[1..]);
    }
  }

  ghost predicate Solitary(a: Agent, w: World, p: Owner) {
    SoloInv(a.config, w.run) && InsideOk(a, w) && Only(w.run, p) && p in w.run.workers
  }

  /** The run has ended, and not as it would have. */
  ghost predicate EndsOtherwise(a: Agent, w: World) {
    w.run.row.status.IsTerminal() && !EndedAs(w.run.row, Whole(a))
  }

  /** A run with a step too many can be brought to an end, and that is not the end it should have. */
  lemma BeyondEndsOtherwise(a: Agent, w: World, p: Owner) returns (es: seq<Event>, v: World)
    requires Transparent(a) && a.config.ttl > 0 && Solitary(a, w, p)
    requires Whole(a).status.Completed? && |w.run.row.steps| > |Whole(a).history.steps|
    ensures Leads(a, w, es, v) && EndsOtherwise(a, v)
  {
    var m := Marked(w);
    assert CrashTransparency.Inv(a, m);
    var end := Recovery.CanEnd(a, m);
    Recovery.ReachesByEvents(a, m, end);
    es :| Recovery.Scheduled(a, m, es, end);
    RunsAreBlind(a, w, es);
    v := Run(a, w, es);
    StepsStay(a, w, es);
    TooManySteps(v.run.row, Whole(a));
  }

  lemma ChecksOut(a: Agent, w: World, p: Owner) returns (v: World)
    requires Solitary(a, w, p) && RunMachine.At(w.run, p, RunMachine.Head)
    requires MayStep(a.config.limits, w.run.workers[p].usage)
    ensures Enabled(a, w, Store(RunMachine.Check(p))) && v == Apply(a, w, Store(RunMachine.Check(p)))
    ensures Solitary(a, v, p) && v.run.row == w.run.row
    ensures v.run.workers[p].pc == RunMachine.Asking(1) && p !in v.talks
  {
    v := Apply(a, w, Store(RunMachine.Check(p)));
    assert Alone(w.run);
    SoloStep(a.config, w.run, RunMachine.Check(p));
    StoreKeepsInside(a, w, RunMachine.Check(p));
  }

  /** The model is asked once more, and its calls are answered. */
  lemma AsksAgain(a: Agent, w: World, p: Owner) returns (es: seq<Event>, v: World)
    requires Transparent(a) && Solitary(a, w, p) && IsAsking(w, p) && p !in w.talks
    ensures Leads(a, w, es, v) && Solitary(a, v, p) && v.run == w.run
    ensures Enabled(a, v, Turn(p))
  {
    SolitaryIsWithin(a, w, p);
    v := Recovery.AsksAndAnswers(a, w, p);
    LeadsNowhere(a, w);
    es := ByItself(a, w, [], w, v);
    StaysSolitary(a, w, v, p);
  }

  lemma SolitaryIsWithin(a: Agent, w: World, p: Owner)
    requires Solitary(a, w, p)
    ensures Recovery.Within(a, w)
  {
    Recovery.OnlyIsAlone(w.run, p);
  }

  lemma StaysSolitary(a: Agent, w: World, v: World, p: Owner)
    requires Solitary(a, w, p) && InsideOk(a, v) && v.run == w.run
    ensures Solitary(a, v, p)
  {
  }

  lemma LeadsNowhere(a: Agent, w: World)
    ensures Leads(a, w, [], w)
  {
  }

  /** A turn answered in full is ready to commit, or has failed the run. */
  lemma AnsweredOrFailed(k: RunMachine.Worker, t: Talk)
    requires k.pc.Asking?
    ensures var pc := RunMachine.Answered(k, t.response, t.results, t.records).pc;
            pc.Committing? || (pc.Finishing? && pc.outcome.status.Failed?)
  {
  }

  lemma TurnsOver(a: Agent, w: World, p: Owner) returns (v: World)
    requires Transparent(a) && Solitary(a, w, p) && Enabled(a, w, Turn(p))
    ensures v == Apply(a, w, Turn(p)) && Solitary(a, v, p) && v.run.row == w.run.row
    ensures var pc := v.run.workers[p].pc; pc.Committing? || (pc.Finishing? && pc.outcome.status.Failed?)
  {
    v := Apply(a, w, Turn(p));
    var t := w.talks[p];
    TurnIsAnswer(a, w, p);
    SoloStep(a.config, w.run, RunMachine.Answer(p, t.response, t.results, t.records));
    RunStepsKeepInside(a, w, Turn(p));
    AnsweredOrFailed(w.run.workers[p], t);
  }

  lemma CommitAddsOne(c: RunMachine.Config, w: RunMachine.World, p: Owner)
    requires SoloInv(c, w) && p in w.workers && w.workers[p].pc.Committing?
    ensures |RunMachine.CommitEffect(w, p).row.steps| == |w.row.steps| + 1
  {
    assert WorkerOk(c, |w.row.steps|, w.workers[p]) && Agrees(c, w.row, Flatten(w.batches), w.workers[p]);
    CommittedAgrees(c, w.row, w.batches, w.workers[p]);
    RunMachine.CommitFrame(w, p);
  }

  lemma CommitsBeyond(a: Agent, w: World, p: Owner) returns (v: World)
    requires Solitary(a, w, p) && w.run.workers[p].pc.Committing?
    ensures Enabled(a, w, Store(RunMachine.Commit(p))) && v == Apply(a, w, Store(RunMachine.Commit(p)))
    ensures Solitary(a, v, p) && |v.run.row.steps| == |w.run.row.steps| + 1
  {
    v := Apply(a, w, Store(RunMachine.Commit(p)));
    assert Alone(w.run);
    CommitAddsOne(a.config, w.run, p);
    SoloStep(a.config, w.run, RunMachine.Commit(p));
    StoreKeepsInside(a, w, RunMachine.Commit(p));
  }

  /** With something left to spend, the run fails or commits a step it should not have. */
  lemma StepsBeyond(a: Agent, w: World, p: Owner) returns (es: seq<Event>, v: World)
    requires Transparent(a) && a.config.ttl > 0 && Solitary(a, w, p) && RunMachine.At(w.run, p, RunMachine.Head)
    requires MayStep(a.config.limits, w.run.workers[p].usage)
    requires Whole(a).status.Completed? && |w.run.row.steps| >= |Whole(a).history.steps|
    ensures Leads(a, w, es, v) && EndsOtherwise(a, v)
  {
    assert Leads(a, w, [], w);
    var c := ChecksOut(a, w, p);
    es, v := AndThen(a, w, [], w, Store(RunMachine.Check(p)));
    var fs, t := AsksAgain(a, c, p);
    LeadsOn(a, w, es, c, fs, t);
    var u := TurnsOver(a, t, p);
    es, v := AndThen(a, w, es + fs, t, Turn(p));
    if u.run.workers[p].pc.Finishing? {
      es, v := AndThen(a, w, es, u, Store(RunMachine.Finish(p)));
    } else {
      var d := CommitsBeyond(a, u, p);
      es, v := AndThen(a, w, es, u, Store(RunMachine.Commit(p)));
      fs, v := BeyondEndsOtherwise(a, d, p);
      LeadsOn(a, w, es, d, fs, v);
      es := es + fs;
    }
  }

  /** A worker with the run to itself that has loaded a closed row. */
  lemma ClosedEndsOtherwise(a: Agent, w: World, p: Owner) returns (es: seq<Event>, v: World)
    requires Transparent(a) && a.config.ttl > 0 && Solitary(a, w, p) && RunMachine.At(w.run, p, RunMachine.Head)
    requires Whole(a).status.Completed? && |w.run.row.steps| >= |Whole(a).history.steps|
    ensures Leads(a, w, es, v) && EndsOtherwise(a, v)
  {
    if MayStep(a.config.limits, w.run.workers[p].usage) {
      es, v := StepsBeyond(a, w, p);
    } else {
      es, v := FailsAtOnce(a, w, p);
    }
  }

  /** On the path, and the final step is committed. */
  ghost predicate ClosedOnPath(a: Agent, w: World) { Overlap.PathInv(a, w) && !Overlap.Unclosed(w.run.row) }

  lemma LoadStays(a: Agent, w: World, p: Owner) returns (v: World)
    requires Transparent(a) && Overlap.PathInv(a, w) && Enabled(a, w, Store(RunMachine.LoadRow(p)))
    ensures v == Apply(a, w, Store(RunMachine.LoadRow(p))) && v.run.row == w.run.row && v.run.batches == w.run.batches
    ensures RunSafety.Inv(a.config, v.run) && InsideOk(a, v) && RunMachine.At(v.run, p, RunMachine.Head)
    ensures StableAll(Flatten(v.run.batches))
    ensures Agrees(a.config, v.run.row, Flatten(v.run.batches), v.run.workers[p])
  {
    v := Apply(a, w, Store(RunMachine.LoadRow(p)));
    LoadsAnyway(a, w, p);
    InvStep(a.config, w.run, RunMachine.LoadRow(p));
    StoreKeepsInside(a, w, RunMachine.LoadRow(p));
  }

  lemma StandsAlone(a: Agent, w: World, p: Owner)
    requires RunSafety.Inv(a.config, w.run) && InsideOk(a, w) && Only(w.run, p) && p in w.run.workers
    requires StableAll(Flatten(w.run.batches)) && Agrees(a.config, w.run.row, Flatten(w.run.batches), w.run.workers[p])
    ensures Solitary(a, w, p)
  {
  }

  lemma LateLoadGoesWrong(a: Agent, w: World, p: Owner) returns (more: seq<Event>, v: World)
    requires Transparent(a) && a.config.ttl > 0 && ClosedOnPath(a, w) && Enabled(a, w, Store(RunMachine.LoadRow(p)))
    ensures Leads(a, w, [Store(RunMachine.LoadRow(p))] + more, v) && EndsOtherwise(a, v)
  {
    assert Leads(a, w, [], w);
    var l := LoadStays(a, w, p);
    var es, _ := AndThen(a, w, [], w, Store(RunMachine.LoadRow(p)));
    var fs, u := CrashesOthers(a, l, p);
    StandsAlone(a, u, p);
    var gs;
    gs, v := ClosedEndsOtherwise(a, u, p);
    LeadsOn(a, l, fs, u, gs, v);
    more := fs + gs;
    LeadsOn(a, w, es, l, more, v);
  }

  // --- A finished run fails ----------------------------------------------------------

  /** As long as nothing is committed every load is in time. */
  lemma {:induction false} EarlyLoadsAreInTime(a: Agent, w: World, es: seq<Event>)
    requires CanRun(a, w, es) && Run(a, w, es).run.row.steps == []
    ensures Overlap.LoadsInTime(a, w, es)
    decreases |es|
  {
    if |es| > 0 {
      StepsStay(a, w, es);
      EarlyLoadsAreInTime(a, Apply(a, w, es[0]), es[1..]);
    }
  }

  ghost predicate GetsInTime(a: Agent, es: seq<Event>, w: World) {
    Leads(a, Start(a), es, w) && Overlap.LoadsInTime(a, Start(a), es)
  }

  lemma {:induction false} InTimeSnoc(a: Agent, w: World, es: seq<Event>, e: Event)
    requires CanRun(a, w, es) && Overlap.LoadsInTime(a, w, es) && Enabled(a, Run(a, w, es), e)
    requires !e.Store? || !e.e.LoadRow?
    ensures CanRun(a, w, es + [e]) && Overlap.LoadsInTime(a, w, es + [e])
    ensures Run(a, w, es + [e]) == Apply(a, Run(a, w, es), e)
    decreases |es|
  {
    if |es| == 0 {
      assert es + [e] == [e] && [e][1..] == [];
      assert CanRun(a, Apply(a, w, e), []) && Overlap.LoadsInTime(a, Apply(a, w, e), []);
    } else {
      InTimeSnoc(a, Apply(a, w, es[0]), es[1..], e);
      assert (es + [e])[0] == es[0] && (es + [e])[1..] == es[1..] + [e];
    }
  }

  lemma TakesInTime(a: Agent, es: seq<Event>, w: World, e: RunMachine.Event) returns (fs: seq<Event>, v: World)
    requires GetsInTime(a, es, w) && Enabled(a, w, Store(e)) && !e.LoadRow?
    ensures fs == es + [Store(e)] && v == Apply(a, w, Store(e)) && GetsInTime(a, fs, v)
  {
    InTimeSnoc(a, Start(a), es, Store(e));
    fs, v := es + [Store(e)], Apply(a, w, Store(e));
  }

  /** The final step is committed and the lease renewed. */
  lemma CommitsAndRenews(a: Agent, o: Owner) returns (es: seq<Event>, w: World)
    requires CutShort.OneReply(a)
    ensures GetsInTime(a, es, w) && w.run.now == 0 && !w.cutShort && w.run.row.status.Running?
    ensures |w.run.row.steps| == 1 && CutShort.Final(w.run.row.steps[0]) && w.run.row.lease == Some(Lease(o, 1))
    ensures w.run.workers.Keys == {o} && w.run.workers[o].pc.Finishing?
    ensures w.run.workers[o].pc.outcome.status.Completed?
  {
    es, w := CutShort.Replies(a, o);
    EarlyLoadsAreInTime(a, Start(a), es);
    es, w := TakesInTime(a, es, w, RunMachine.Commit(o));
    es, w := TakesInTime(a, es, w, RunMachine.Renew(o));
  }

  /** Its lease runs out, another worker claims the run, and only then the first one finishes it. */
  lemma FinishesLate(a: Agent, o: Owner, p: Owner) returns (es: seq<Event>, w: World)
    requires CutShort.OneReply(a) && o != p
    ensures GetsInTime(a, es, w) && !w.cutShort && w.run.row.status.Completed?
    ensures |w.run.row.steps| == 1 && CutShort.Final(w.run.row.steps[0])
    ensures RunMachine.At(w.run, p, RunMachine.Loading)
  {
    es, w := CommitsAndRenews(a, o);
    es, w := TakesInTime(a, es, w, RunMachine.Tick(2));
    es, w := TakesInTime(a, es, w, RunMachine.Claim(p));
    es, w := TakesInTime(a, es, w, RunMachine.Finish(o));
  }

  /** With the final step behind it there is nothing left to spend. */
  lemma OneStepSpent(a: Agent, w: World, p: Owner)
    requires Transparent(a) && Overlap.PathInv(a, w) && RunMachine.At(w.run, p, RunMachine.Loading)
    requires a.config.limits.maxSteps == 1 && |w.run.row.steps| == 1
    ensures var k := RunMachine.Loaded(a.config, w.run.row, w.run.workers[p]);
            k.pc.Head? && !MayStep(a.config.limits, k.usage)
  {
    LoadsAnyway(a, w, p);
    assert w.run.row.steps == [w.run.row.steps[0]];
    CutShort.SpentOnOne(w.run.row.steps[0]);
  }

  lemma LoadsAndFails(a: Agent, w: World, p: Owner) returns (es: seq<Event>, v: World)
    requires RunMachine.At(w.run, p, RunMachine.Loading)
    requires var k := RunMachine.Loaded(a.config, w.run.row, w.run.workers[p]);
             k.pc.Head? && !MayStep(a.config.limits, k.usage)
    ensures es == [Store(RunMachine.LoadRow(p)), Store(RunMachine.Check(p)), Store(RunMachine.Finish(p))]
    ensures Leads(a, w, es, v) && v.run.row.status.Failed? && v.cutShort == w.cutShort
  {
    assert Leads(a, w, [], w);
    var fs, l := AndThen(a, w, [], w, Store(RunMachine.LoadRow(p)));
    var gs;
    gs, v := FailsAtOnce(a, l, p);
    LeadsOn(a, w, fs, l, gs, v);
    es := fs + gs;
  }

  /**
   * A run that was COMPLETED, as it should be, is overwritten with FAILED: no worker was lost,
   * and none loaded the row between its final commit and `finish`. One that claimed it
   * between them loads it after both.
   */
  lemma CompletedRunFails(a: Agent, o: Owner, p: Owner) returns (es: seq<Event>, w: World, more: seq<Event>, v: World)
    requires CutShort.OneReply(a) && a.config.limits.maxSteps == 1 && o != p
    ensures Transparent(a) && Leads(a, Start(a), es, w) && Overlap.LoadsInTime(a, Start(a), es)
    ensures w.run.row.status.Completed? && EndedAs(w.run.row, Whole(a)) && !w.cutShort
    ensures more == [Store(RunMachine.LoadRow(p)), Store(RunMachine.Check(p)), Store(RunMachine.Finish(p))]
    ensures Leads(a, w, more, v) && v.run.row.status.Failed? && !v.cutShort
  {
    CutShort.OneReplyIsTransparent(a);
    es, w := FinishesLate(a, o, p);
    Overlap.OverlapIsInvisible(a, es);
    InTimeIsOnPath(a, es);
    OneStepSpent(a, w, p);
    more, v := LoadsAndFails(a, w, p);
  }

  // --- The condition is the weakest --------------------------------------------------

  /** The first load that came too late. */
  lemma {:induction false} FirstLateLoad(a: Agent, w: World, es: seq<Event>) returns (k: nat)
    requires CanRun(a, w, es) && !Overlap.LoadsInTime(a, w, es)
    ensures k < |es| && es[k].Store? && es[k].e.LoadRow?
    ensures CanRun(a, w, es[..k]) && Overlap.LoadsInTime(a, w, es[..k])
    ensures var u := Run(a, w, es[..k]); Enabled(a, u, es[k]) && !Overlap.Unclosed(u.run.row)
    decreases |es|
  {
    if es[0].Store? && !Overlap.InTime(w.run, es[0].e) {
      k := 0;
    } else {
      var j := FirstLateLoad(a, Apply(a, w, es[0]), es[1..]);
      k := j + 1;
      assert es[..k][0] == es[0] && es[..k][1..] == es[1..][..j];
    }
  }

  lemma Reassociate<T>(es: seq<T>, k: nat, more: seq<T>)
    requires k < |es|
    ensures es[..k] + ([es[k]] + more) == es[..k + 1] + more
  {
  }

  /**
   * `LoadsInTime` cannot be weakened: whatever schedule breaks it could, from the first load
   * that came too late, have gone on to an end that is not the uninterrupted run's.
   */
  lemma LoadsInTimeIsWeakest(a: Agent, es: seq<Event>) returns (k: nat, more: seq<Event>)
    requires Transparent(a) && a.config.ttl > 0
    requires CanRun(a, Start(a), es) && !Overlap.LoadsInTime(a, Start(a), es)
    ensures k < |es| && CanRun(a, Start(a), es[..k + 1] + more)
    ensures EndsOtherwise(a, Run(a, Start(a), es[..k + 1] + more))
  {
    k := FirstLateLoad(a, Start(a), es);
    var w := Run(a, Start(a), es[..k]);
    InTimeIsOnPath(a, es[..k]);
    var v;
    more, v := LateLoadGoesWrong(a, w, es[k].e.o);
    LeadsOn(a, Start(a), es[..k], w, [es[k]] + more, v);
    Reassociate(es, k, more);
  }
}
