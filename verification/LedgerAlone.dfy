/**
 * The protocol's code against its machine: an attempt that `LedgerMachine` steps through with
 * nothing in between leaves the rows, the handler's start and the answer that
 * `execute_invocation` leaves. What the machine adds is all that may come in between.
 */
module LedgerAlone {
  import opened Wrappers
  import opened Idempotency
  import opened ToolLedger
  import opened TaskQueue
  import opened LedgerMachine

  lemma {:induction false} OneMore(effects: Effects, w: World, es: seq<Event>, e: WorkerEvent)
    returns (fs: seq<Event>, v: World)
    requires CanRun(effects, w, es) && WorkerEnabled(Run(effects, w, es), e)
    ensures fs == es + [Worker(e)] && CanRun(effects, w, fs)
    ensures v == Run(effects, w, fs) == WorkerStep(effects, Run(effects, w, es), e)
    decreases |es|
  {
    fs := es + [Worker(e)];
    v := WorkerStep(effects, Run(effects, w, es), e);
    if |es| == 0 {
      assert fs == [Worker(e)] && fs[1..] == [] && CanRun(effects, v, []) && Run(effects, v, []) == v;
    } else {
      var gs, u := OneMore(effects, Apply(effects, w, es[0]), es[1..], e);
      assert fs[0] == es[0] && fs[1..] == gs;
    }
  }

  /** Where an attempt stands that has come, with nothing in between, from `w`. */
  predicate Came(effects: Effects, w: World, id: nat, task: Task, es: seq<Event>, v: World, pc: AttemptPc) {
    && CanRun(effects, w, es) && Run(effects, w, es) == v
    && v.attempts == w.attempts[id := Attempt(task, pc)] && v.passes == w.passes
    && forall e | e in es :: e.Worker? && e.we.id == id
  }

  lemma Goes(
    effects: Effects, w: World, id: nat, task: Task, es: seq<Event>, u: World, pc: AttemptPc, e: WorkerEvent,
    next: AttemptPc)
    returns (fs: seq<Event>, v: World)
    requires Came(effects, w, id, task, es, u, pc) && e.id == id && WorkerEnabled(u, e)
    requires var x := WorkerStep(effects, u, e);
             x.attempts == u.attempts[id := Attempt(task, next)] && x.passes == u.passes
    ensures Came(effects, w, id, task, fs, v, next) && v == WorkerStep(effects, u, e)
  {
    fs, v := OneMore(effects, w, es, e);
    UpdatedTwice(w.attempts, id, Attempt(task, pc), Attempt(task, next));
  }

  lemma UpdatedTwice<K, V>(m: map<K, V>, k: K, x: V, y: V)
    ensures m[k := x][k := y] == m[k := y]
  {
  }

  lemma Arrives(effects: Effects, w: World, id: nat, task: Task) returns (es: seq<Event>, v: World)
    requires id !in w.attempts
    ensures Came(effects, w, id, task, es, v, Inserting) && v == w.(attempts := v.attempts)
  {
    es, v := OneMore(effects, w, [], Arrive(id, task));
  }

  /** The claim: a new row and the right to run, or what the row there says. */
  lemma Claims(effects: Effects, w: World, id: nat, task: Task) returns (es: seq<Event>, v: World)
    requires id !in w.attempts
    ensures var k, effect := task.key, effects(task.call.tool);
            var pc := if k in w.rows then AfterDecision(Decide(w.rows[k], effect)) else Granted;
            Came(effects, w, id, task, es, v, pc)
    ensures v.rows == if task.key in w.rows then w.rows else w.rows[task.key := PENDING_ROW]
    ensures v.starts == w.starts
  {
    var u;
    es, u := Arrives(effects, w, id, task);
    if task.key in w.rows {
      es, v := Goes(effects, w, id, task, es, u, Inserting, Insert(id), Deciding);
      es, v := Goes(effects, w, id, task, es, v, Deciding, ReadBack(id),
                    AfterDecision(Decide(w.rows[task.key], effects(task.call.tool))));
    } else {
      es, v := Goes(effects, w, id, task, es, u, Inserting, Insert(id), Granted);
    }
  }

  lemma Runs(effects: Effects, w: World, id: nat, task: Task, es: seq<Event>, u: World, did: HandlerResult)
    returns (fs: seq<Event>, v: World)
    requires Came(effects, w, id, task, es, u, Granted) && task.key in u.rows
    ensures Came(effects, w, id, task, fs, v, Finished(RecordOf(did)))
    ensures v.rows == u.rows[task.key := RecordOf(did)] && v.starts == u.starts + multiset{task.key}
  {
    fs, v := Goes(effects, w, id, task, es, u, Granted, Start(id), Executing);
    fs, v := Goes(effects, w, id, task, fs, v, Executing, Record(id, did), Finished(RecordOf(did)));
  }

  lemma Reviews(effects: Effects, w: World, id: nat, task: Task, es: seq<Event>, u: World)
    returns (fs: seq<Event>, v: World)
    requires Came(effects, w, id, task, es, u, Refusing) && task.key in u.rows
    ensures var row := ReviewRow(ReviewReason(task.call.tool));
            && Came(effects, w, id, task, fs, v, Finished(row))
            && v.rows == u.rows[task.key := row] && v.starts == u.starts
  {
    fs, v := Goes(effects, w, id, task, es, u, Refusing, Review(id), Finished(ReviewRow(ReviewReason(task.call.tool))));
  }

  /** An attempt with nothing in between does to the ledger what one call of the code does. */
  lemma AloneAsInCode(
    effects: Effects, registry: Registry, behaviour: (nat, Call) -> HandlerResult, w: World, t: Trace,
    id: nat, task: Task)
    returns (es: seq<Event>, v: World)
    requires RowsOk(w.rows) && id !in w.attempts && t.rows == w.rows
    requires Runnable(registry, task) && registry[task.call.tool].effect == effects(task.call.tool)
    ensures var after := AfterTask(registry, behaviour, t, task);
            && task.key in after.rows && Came(effects, w, id, task, es, v, Finished(after.rows[task.key]))
            && v.rows == after.rows && v.starts == w.starts + multiset(after.started[|t.started|..])
  {
    var did, effect, k := behaviour(|t.started|, task.call), effects(task.call.tool), task.key;
    var row := RowAfter(w.rows, k, effect, task.call.tool, did);
    TaskLeaves(registry, behaviour, t, task);
    es, v := Claims(effects, w, id, task);
    UpdatedTwice(w.rows, k, PENDING_ROW, row);
    if Authorised(w.rows, k, effect) {
      es, v := Runs(effects, w, id, task, es, v, did);
    } else if v.attempts[id].pc.Refusing? {
      es, v := Reviews(effects, w, id, task, es, v);
    }
    assert v.rows == w.rows[k := row];
  }

  lemma TaskLeaves(registry: Registry, behaviour: (nat, Call) -> HandlerResult, t: Trace, d: TaskData)
    requires Runnable(registry, d)
    ensures var after, effect := AfterTask(registry, behaviour, t, d), registry[d.call.tool].effect;
            && after.rows == t.rows[d.key := RowAfter(t.rows, d.key, effect, d.call.tool,
                                                      behaviour(|t.started|, d.call))]
            && after.started[|t.started|..] == if Authorised(t.rows, d.key, effect) then [d.key] else []
  {
  }
}
