/**
 * The ledger under every interleaving.
 *
 * Any number of attempts run the claim/execute/record protocol at once: inline calls,
 * deliveries, redeliveries and duplicates are all attempts, and a killed process or a step
 * timeout is a crash of one. Beside them any number of loop passes wait on durable calls.
 * Each ledger statement is one step; an insert that conflicts and the read that answers it
 * are two.
 */
module LedgerMachine {
  import opened Json
  import opened Idempotency
  import opened InvocationKey

  datatype AttemptPc =
    | Inserting
    | Deciding
    | Granted
    | Executing
    | Refusing
    | Finished(outcome: Outcome)

  /** A task whose key is the one its call has. */
  type Task = t: TaskData | ValidCall(t.call) && t.key == KeyOf(t.call)
    witness TaskData(Call("", 0, "", Null), KeyOf(Call("", 0, "", Null)))

  datatype Attempt = Attempt(task: Task, pc: AttemptPc) {
    predicate Live() { !pc.Finished? }
  }

  /** One pass of the loop over a durable call. */
  datatype PassPc = Looking | Enqueueing | Waiting | Collected(outcome: Outcome) | ForReview | GivenUp

  datatype Pass = Pass(task: Task, pc: PassPc)

  /** The rows, the processes, and counts of what has happened to each key. */
  datatype World = World(
    rows: Rows,
    attempts: map<nat, Attempt>,
    passes: map<nat, Pass>,
    executes: multiset<Key>,  // EXECUTE decisions
    starts: multiset<Key>,    // handlers started
    records: multiset<Key>,   // handlers whose outcome was recorded
    losses: multiset<Key>,    // handlers whose process died first
    enqueues: multiset<Key>)

  datatype WorkerEvent =
    | Arrive(id: nat, task: Task)
    | Insert(id: nat)
    | ReadBack(id: nat)
    | Start(id: nat)
    | Record(id: nat, did: HandlerResult)
    | Review(id: nat)
    | Crash(id: nat)

  datatype LoopEvent =
    | Begin(id: nat, task: Task)
    | FirstLookup(id: nat)
    | Enqueue(id: nat)
    | Poll(id: nat)
    | GiveUp(id: nat)

  datatype Event = Worker(we: WorkerEvent) | Loop(le: LoopEvent)

  const EMPTY := World(map[], map[], map[], multiset{}, multiset{}, multiset{}, multiset{}, multiset{})

  /** The effect class each tool declares; every process runs the same registry. */
  type Effects = string -> EffectClass

  predicate At(w: World, id: nat, pc: AttemptPc) { id in w.attempts && w.attempts[id].pc == pc }

  predicate PassAt(w: World, id: nat, pc: PassPc) { id in w.passes && w.passes[id].pc == pc }

  predicate WorkerEnabled(w: World, e: WorkerEvent) {
    match e
    case Arrive(id, _) => id !in w.attempts
    case Insert(id) => At(w, id, Inserting)
    case ReadBack(id) => At(w, id, Deciding) && w.attempts[id].task.key in w.rows
    case Start(id) => At(w, id, Granted)
    case Record(id, _) => At(w, id, Executing)
    case Review(id) => At(w, id, Refusing)
    case Crash(id) => id in w.attempts && w.attempts[id].Live()
  }

  predicate LoopEnabled(w: World, e: LoopEvent) {
    match e
    case Begin(id, _) => id !in w.passes
    case FirstLookup(id) => PassAt(w, id, Looking)
    case Enqueue(id) => PassAt(w, id, Enqueueing)
    case Poll(id) => PassAt(w, id, Waiting)
    case GiveUp(id) => PassAt(w, id, Waiting)
  }

  predicate Enabled(w: World, e: Event) {
    match e
    case Worker(we) => WorkerEnabled(w, we)
    case Loop(le) => LoopEnabled(w, le)
  }

  function Move(w: World, id: nat, pc: AttemptPc): World
    requires id in w.attempts
  {
    w.(attempts := w.attempts[id := w.attempts[id].(pc := pc)])
  }

  function MovePass(w: World, id: nat, pc: PassPc): World
    requires id in w.passes
  {
    w.(passes := w.passes[id := w.passes[id].(pc := pc)])
  }

  function AfterDecision(d: Decision): AttemptPc {
    match d.action
    case Replay => Finished(Outcome(if d.isError then Failed else Succeeded, d.result, d.isError))
    case Refuse => Refusing
    case _ => Granted
  }

  /** What a poll makes of the row: keep waiting, hand it over, or stop for review. */
  function AfterLookup(rows: Rows, key: Key): PassPc {
    if key !in rows || rows[key].status.Pending? then Waiting
    else if rows[key].status.NeedsReview? then ForReview
    else Collected(rows[key])
  }

  function WorkerStep(effects: Effects, w: World, e: WorkerEvent): World
    requires WorkerEnabled(w, e)
  {
    match e
    case Arrive(id, task) => w.(attempts := w.attempts[id := Attempt(task, Inserting)])
    case Insert(id) =>
      var k := w.attempts[id].task.key;
      if k in w.rows then Move(w, id, Deciding)
      else Move(w.(rows := w.rows[k := PENDING_ROW], executes := w.executes + multiset{k}), id, Granted)
    case ReadBack(id) =>
      var a := w.attempts[id];
      Move(w, id, AfterDecision(Decide(w.rows[a.task.key], effects(a.task.call.tool))))
    case Start(id) =>
      Move(w.(starts := w.starts + multiset{w.attempts[id].task.key}), id, Executing)
    case Record(id, did) =>
      var k := w.attempts[id].task.key;
      Move(w.(rows := Update(w.rows, k, RecordOf(did)), records := w.records + multiset{k}),
           id, Finished(RecordOf(did)))
    case Review(id) =>
      var a := w.attempts[id];
      var row := ReviewRow(ReviewReason(a.task.call.tool));
      Move(w.(rows := Update(w.rows, a.task.key, row)), id, Finished(row))
    case Crash(id) =>
      var a := w.attempts[id];
      w.(attempts := w.attempts - {id},
         losses := if a.pc.Executing? then w.losses + multiset{a.task.key} else w.losses)
  }

  function LoopStep(w: World, e: LoopEvent): World
    requires LoopEnabled(w, e)
  {
    match e
    case Begin(id, task) => w.(passes := w.passes[id := Pass(task, Looking)])
    case FirstLookup(id) =>
      var k := w.passes[id].task.key;
      MovePass(w, id, if k in w.rows then AfterLookup(w.rows, k) else Enqueueing)
    case Enqueue(id) =>
      MovePass(w.(enqueues := w.enqueues + multiset{w.passes[id].task.key}), id, Waiting)
    case Poll(id) => MovePass(w, id, AfterLookup(w.rows, w.passes[id].task.key))
    case GiveUp(id) => MovePass(w, id, GivenUp)
  }

  function Apply(effects: Effects, w: World, e: Event): World
    requires Enabled(w, e)
  {
    match e
    case Worker(we) => WorkerStep(effects, w, we)
    case Loop(le) => LoopStep(w, le)
  }

  // --- Runs --------------------------------------------------------------------------

  predicate CanRun(effects: Effects, w: World, es: seq<Event>)
    decreases |es|
  {
    |es| == 0 || (Enabled(w, es[0]) && CanRun(effects, Apply(effects, w, es[0]), es[1..]))
  }

  function Run(effects: Effects, w: World, es: seq<Event>): World
    requires CanRun(effects, w, es)
    decreases |es|
  {
    if |es| == 0 then w else Run(effects, Apply(effects, w, es[0]), es[1..])
  }

  predicate Closed(w: World, k: Key) { k in w.rows && w.rows[k].IsTerminal() }

  // --- What every step keeps ---------------------------------------------------------

  /** A claim leaves a row behind, and there is one EXECUTE for each row. */
  ghost predicate ClaimsOk(w: World) {
    && RowsOk(w.rows)
    && (forall k :: w.executes[k] == if k in w.rows then 1 else 0)
    && (forall id | id in w.attempts && !w.attempts[id].pc.Inserting? :: w.attempts[id].task.key in w.rows)
  }

  lemma InsertCounts(rows: Rows, executes: multiset<Key>, k: Key)
    requires RowsOk(rows) && k !in rows && forall j :: executes[j] == if j in rows then 1 else 0
    ensures var after := rows[k := PENDING_ROW];
            RowsOk(after) && forall j :: (executes + multiset{k})[j] == if j in after then 1 else 0
  {
  }

  lemma InsertKeepsClaims(effects: Effects, w: World, id: nat)
    requires ClaimsOk(w) && WorkerEnabled(w, Insert(id))
    ensures ClaimsOk(WorkerStep(effects, w, Insert(id)))
  {
    var k := w.attempts[id].task.key;
    if k !in w.rows { InsertCounts(w.rows, w.executes, k); }
  }

  /** Any other statement writes only to rows that are there. */
  lemma WriteKeepsClaims(w: World, v: World, id: nat)
    requires ClaimsOk(w) && v.executes == w.executes && RowsOk(v.rows) && v.rows.Keys == w.rows.Keys
    requires forall j | j in v.attempts && j != id :: j in w.attempts && v.attempts[j] == w.attempts[j]
    requires id in v.attempts && !v.attempts[id].pc.Inserting? ==> v.attempts[id].task.key in v.rows
    ensures ClaimsOk(v)
  {
  }

  lemma RowsStayOk(effects: Effects, w: World, e: WorkerEvent)
    requires ClaimsOk(w) && WorkerEnabled(w, e) && !e.Insert?
    ensures var v := WorkerStep(effects, w, e);
            && RowsOk(v.rows) && v.rows.Keys == w.rows.Keys && v.executes == w.executes
            && (e.id in v.attempts && !v.attempts[e.id].pc.Inserting? ==> v.attempts[e.id].task.key in v.rows)
  {
  }

  lemma ClaimsStep(effects: Effects, w: World, e: WorkerEvent)
    requires ClaimsOk(w) && WorkerEnabled(w, e)
    ensures ClaimsOk(WorkerStep(effects, w, e))
  {
    if e.Insert? {
      InsertKeepsClaims(effects, w, e.id);
    } else {
      var v := WorkerStep(effects, w, e);
      RowsStayOk(effects, w, e);
      OneAttempt(effects, w, e);
      WriteKeepsClaims(w, v, e.id);
    }
  }

  /** Calls with one key name the same tool: the key's text can be read back. */
  lemma SameKeySameTool(c: Call, d: Call)
    requires ValidCall(c) && ValidCall(d) && KeyOf(c) == KeyOf(d)
    ensures c.tool == d.tool
  {
    PreimageIsExact(c.runId, c.stepIdx, c.tool, c.args, d.runId, d.stepIdx, d.tool, d.args);
  }

  // --- Unsafe calls ------------------------------------------------------------------

  /** Some unsafe call has this key. */
  ghost predicate UnsafeKey(effects: Effects, k: Key) {
    exists c: Call :: ValidCall(c) && KeyOf(c) == k && effects(c.tool).Unsafe?
  }

  /** A step touches one attempt. */
  predicate OnlyAttempt(w: World, v: World, id: nat) {
    && (forall j | j in w.attempts && j != id :: j in v.attempts && v.attempts[j] == w.attempts[j])
    && (forall j | j in v.attempts && j != id :: j in w.attempts)
  }

  lemma OneAttempt(effects: Effects, w: World, e: WorkerEvent)
    requires WorkerEnabled(w, e)
    ensures OnlyAttempt(w, WorkerStep(effects, w, e), e.id)
  {
  }

  /** The attempts on `k` that hold permission to start the handler and have not used it. */
  function MayStart(w: World, k: Key): set<nat> {
    set id | id in w.attempts && w.attempts[id].task.key == k && w.attempts[id].pc.Granted?
  }

  lemma SizesApart(a: set<nat>, b: set<nat>, id: nat)
    requires forall x | x != id :: x in a <==> x in b
    ensures |a| == |b| + (if id in a then 1 else 0) - (if id in b then 1 else 0)
  {
    var rest := a - {id};
    assert a == rest + if id in a then {id} else {};
    assert b == rest + if id in b then {id} else {};
  }

  lemma MayStartMoves(w: World, v: World, id: nat, k: Key)
    requires OnlyAttempt(w, v, id)
    ensures |MayStart(v, k)| == |MayStart(w, k)|
              + (if id in MayStart(v, k) then 1 else 0) - (if id in MayStart(w, k) then 1 else 0)
  {
    SizesApart(MayStart(v, k), MayStart(w, k), id);
  }

  /** Permissions to start an unsafe call, used or not, are no more than were given out. */
  ghost predicate UnsafeOk(effects: Effects, w: World) {
    forall k | UnsafeKey(effects, k) :: w.starts[k] + |MayStart(w, k)| <= w.executes[k]
  }

  /** A pending unsafe call is refused, whoever reads its row. */
  lemma UnsafeIsNotReExecuted(effects: Effects, t: Task, row: Outcome)
    requires UnsafeKey(effects, t.key)
    ensures AfterDecision(Decide(row, effects(t.call.tool))) != Granted
  {
    var c: Call :| ValidCall(c) && KeyOf(c) == t.key && effects(c.tool).Unsafe?;
    SameKeySameTool(c, t.call);
  }

  /** One step's starts and new permissions are covered by the EXECUTE it answers, if it does. */
  lemma UnsafeMoves(effects: Effects, w: World, e: WorkerEvent, k: Key)
    requires WorkerEnabled(w, e) && UnsafeKey(effects, k)
    ensures var v := WorkerStep(effects, w, e);
            v.starts[k] - w.starts[k] + (if e.id in MayStart(v, k) then 1 else 0)
            <= v.executes[k] - w.executes[k] + (if e.id in MayStart(w, k) then 1 else 0)
  {
    if e.ReadBack? && w.attempts[e.id].task.key == k {
      UnsafeIsNotReExecuted(effects, w.attempts[e.id].task, w.rows[k]);
    }
  }

  lemma UnsafeStep(effects: Effects, w: World, e: WorkerEvent)
    requires UnsafeOk(effects, w) && WorkerEnabled(w, e)
    ensures UnsafeOk(effects, WorkerStep(effects, w, e))
  {
    var v := WorkerStep(effects, w, e);
    forall k | UnsafeKey(effects, k) ensures v.starts[k] + |MayStart(v, k)| <= v.executes[k] {
      UnsafeMoves(effects, w, e, k);
      OneAttempt(effects, w, e);
      MayStartMoves(w, v, e.id, k);
    }
  }

  ghost predicate Inv(effects: Effects, w: World) { ClaimsOk(w) && UnsafeOk(effects, w) }

  lemma LoopKeepsInv(effects: Effects, w: World, e: LoopEvent)
    requires Inv(effects, w) && LoopEnabled(w, e)
    ensures Inv(effects, LoopStep(w, e))
  {
    var v := LoopStep(w, e);
    assert v == w.(passes := v.passes, enqueues := v.enqueues);
    forall k ensures MayStart(v, k) == MayStart(w, k) {
    }
  }

  lemma {:induction false} InvRun(effects: Effects, w: World, es: seq<Event>)
    requires Inv(effects, w) && CanRun(effects, w, es)
    ensures Inv(effects, Run(effects, w, es))
    decreases |es|
  {
    if |es| > 0 {
      if es[0].Worker? {
        ClaimsStep(effects, w, es[0].we);
        UnsafeStep(effects, w, es[0].we);
      } else {
        LoopKeepsInv(effects, w, es[0].le);
      }
      InvRun(effects, Apply(effects, w, es[0]), es[1..]);
    }
  }

  lemma InvHolds(effects: Effects, es: seq<Event>)
    requires CanRun(effects, EMPTY, es)
    ensures Inv(effects, Run(effects, EMPTY, es))
  {
    assert forall k :: MayStart(EMPTY, k) == {};
    InvRun(effects, EMPTY, es);
  }

  /** Whatever the interleaving, the handler of an unsafe call starts at most once per key. */
  lemma UnsafeStartsAtMostOnce(effects: Effects, es: seq<Event>, c: Call)
    requires CanRun(effects, EMPTY, es) && ValidCall(c) && effects(c.tool).Unsafe?
    ensures Run(effects, EMPTY, es).starts[KeyOf(c)] <= 1
  {
    InvHolds(effects, es);
    assert UnsafeKey(effects, KeyOf(c));
  }

  /** EXECUTE is the answer to at most one claim of a key, ever. */
  lemma ExecuteGrantedOnce(effects: Effects, es: seq<Event>, k: Key)
    requires CanRun(effects, EMPTY, es)
    ensures Run(effects, EMPTY, es).executes[k] <= 1
  {
    InvHolds(effects, es);
  }

  // --- Closed rows -------------------------------------------------------------------

  lemma ClosedStaysClosed(effects: Effects, w: World, e: WorkerEvent, k: Key)
    requires WorkerEnabled(w, e) && Closed(w, k)
    ensures Closed(WorkerStep(effects, w, e), k)
  {
  }

  lemma GrantsMove(effects: Effects, w: World, e: WorkerEvent, k: Key)
    requires WorkerEnabled(w, e) && Closed(w, k)
    ensures var v := WorkerStep(effects, w, e);
            v.starts[k] - w.starts[k] + (if e.id in MayStart(v, k) then 1 else 0)
            <= if e.id in MayStart(w, k) then 1 else 0
  {
  }

  lemma GrantsDwindle(effects: Effects, w: World, e: WorkerEvent, k: Key)
    requires WorkerEnabled(w, e) && Closed(w, k)
    ensures var v := WorkerStep(effects, w, e);
            v.starts[k] + |MayStart(v, k)| <= w.starts[k] + |MayStart(w, k)|
  {
    OneAttempt(effects, w, e);
    GrantsMove(effects, w, e, k);
    MayStartMoves(w, WorkerStep(effects, w, e), e.id, k);
  }

  /**
   * A closed row never opens again, and no claim made after it closed starts the handler:
   * the starts still to come are those of attempts that held a grant at that moment.
   */
  lemma {:induction false} ClosedForGood(effects: Effects, w: World, es: seq<Event>, k: Key)
    requires CanRun(effects, w, es) && Closed(w, k)
    ensures Closed(Run(effects, w, es), k)
    ensures Run(effects, w, es).starts[k] <= w.starts[k] + |MayStart(w, k)|
    decreases |es|
  {
    if |es| > 0 {
      var v := Apply(effects, w, es[0]);
      if es[0].Worker? {
        ClosedStaysClosed(effects, w, es[0].we, k);
        GrantsDwindle(effects, w, es[0].we, k);
      }
      ClosedForGood(effects, v, es[1..], k);
    }
  }

  // --- Every start is accounted for --------------------------------------------------

  function ExecutingOn(w: World, k: Key): set<nat> {
    set id | id in w.attempts && w.attempts[id].task.key == k && w.attempts[id].pc.Executing?
  }

  ghost predicate Tallied(w: World) {
    forall k :: w.starts[k] == w.records[k] + w.losses[k] + |ExecutingOn(w, k)|
  }

  lemma TallyStep(effects: Effects, w: World, e: WorkerEvent)
    requires WorkerEnabled(w, e) && Tallied(w)
    ensures Tallied(WorkerStep(effects, w, e))
  {
    var v := WorkerStep(effects, w, e);
    forall k ensures v.starts[k] == v.records[k] + v.losses[k] + |ExecutingOn(v, k)| {
      TallyOf(effects, w, e, k);
    }
  }

  lemma ExecutingMoves(w: World, v: World, id: nat, k: Key)
    requires OnlyAttempt(w, v, id)
    ensures |ExecutingOn(v, k)| == |ExecutingOn(w, k)|
              + (if id in ExecutingOn(v, k) then 1 else 0) - (if id in ExecutingOn(w, k) then 1 else 0)
  {
    SizesApart(ExecutingOn(v, k), ExecutingOn(w, k), id);
  }

  lemma CountersMove(effects: Effects, w: World, e: WorkerEvent, k: Key)
    requires WorkerEnabled(w, e)
    ensures var v := WorkerStep(effects, w, e);
            v.starts[k] + (if e.id in ExecutingOn(w, k) then 1 else 0) - w.starts[k]
            == v.records[k] + v.losses[k] + (if e.id in ExecutingOn(v, k) then 1 else 0)
               - w.records[k] - w.losses[k]
  {
  }

  lemma TallyOf(effects: Effects, w: World, e: WorkerEvent, k: Key)
    requires WorkerEnabled(w, e) && Tallied(w)
    ensures var v := WorkerStep(effects, w, e);
            v.starts[k] == v.records[k] + v.losses[k] + |ExecutingOn(v, k)|
  {
    var v := WorkerStep(effects, w, e);
    OneAttempt(effects, w, e);
    ExecutingMoves(w, v, e.id, k);
    CountersMove(effects, w, e, k);
  }

  lemma {:induction false} TallyRun(effects: Effects, w: World, es: seq<Event>)
    requires CanRun(effects, w, es) && Tallied(w)
    ensures Tallied(Run(effects, w, es))
    decreases |es|
  {
    if |es| > 0 {
      var v := Apply(effects, w, es[0]);
      if es[0].Worker? {
        TallyStep(effects, w, es[0].we);
      } else {
        assert forall k :: ExecutingOn(v, k) == ExecutingOn(w, k);
      }
      TallyRun(effects, v, es[1..]);
    }
  }

  /** Conservation: every handler start was recorded, was lost to a crash, or is running. */
  lemma StartsAreAccountedFor(effects: Effects, es: seq<Event>, k: Key)
    requires CanRun(effects, EMPTY, es)
    ensures var w := Run(effects, EMPTY, es);
            w.starts[k] == w.records[k] + w.losses[k] + |ExecutingOn(w, k)|
  {
    assert Tallied(EMPTY) by {
      assert forall k :: ExecutingOn(EMPTY, k) == {};
    }
    TallyRun(effects, EMPTY, es);
  }

  // --- Attempts that do not overlap --------------------------------------------------

  /** At most one live attempt on each key. */
  predicate Serial(w: World) {
    forall i, j | i in w.attempts && j in w.attempts && w.attempts[i].Live() && w.attempts[j].Live()
      && w.attempts[i].task.key == w.attempts[j].task.key :: i == j
  }

  predicate SerialRun(effects: Effects, w: World, es: seq<Event>)
    requires CanRun(effects, w, es)
    decreases |es|
  {
    Serial(w) && (|es| == 0 || SerialRun(effects, Apply(effects, w, es[0]), es[1..]))
  }

  /** What an attempt can be doing, given the row on its key. */
  predicate AttemptOk(w: World, a: Attempt) {
    match a.pc
    case Inserting => true
    case Deciding => a.task.key in w.rows
    case Granted => a.task.key in w.rows && w.rows[a.task.key].status.Pending?
    case Executing => a.task.key in w.rows && w.rows[a.task.key].status.Pending?
    case Refusing =>
      a.task.key in w.rows
      && (w.rows[a.task.key].status.Pending? || w.rows[a.task.key] == ReviewRow(ReviewReason(a.task.call.tool)))
    case Finished(o) => a.task.key in w.rows && w.rows[a.task.key] == o && o.IsTerminal()
  }

  predicate PassOk(w: World, p: Pass) {
    p.pc.Collected? ==>
      && p.task.key in w.rows && w.rows[p.task.key] == p.pc.outcome
      && (p.pc.outcome.status.Succeeded? || p.pc.outcome.status.Failed?)
  }

  ghost predicate SerialOk(w: World) {
    && RowsOk(w.rows)
    && (forall k :: w.records[k] <= if Closed(w, k) then 1 else 0)
    && (forall id | id in w.attempts :: AttemptOk(w, w.attempts[id]))
    && (forall id | id in w.passes :: PassOk(w, w.passes[id]))
    && (forall t: Task | t.key in w.rows && w.rows[t.key].status.NeedsReview? ::
          w.rows[t.key] == ReviewRow(ReviewReason(t.call.tool)))
  }

  /** When the only live attempt on a key closes its row, everything else stays as it was. */
  lemma ClosingKeeps(w: World, id: nat, row: Outcome, records: multiset<Key>)
    requires SerialOk(w) && Serial(w) && id in w.attempts
    requires w.attempts[id].Live() && w.attempts[id].task.key in w.rows
    requires row.IsTerminal() && Consistent(row)
    requires w.rows[w.attempts[id].task.key].status.Pending? || w.rows[w.attempts[id].task.key] == row
    requires row.status.NeedsReview? ==> row == ReviewRow(ReviewReason(w.attempts[id].task.call.tool))
    requires forall k :: records[k] == w.records[k]
               || (k == w.attempts[id].task.key && w.rows[k].status.Pending? && records[k] == w.records[k] + 1)
    ensures SerialOk(Move(w.(rows := Update(w.rows, w.attempts[id].task.key, row), records := records),
                          id, Finished(row)))
  {
    var a := w.attempts[id];
    var v := Move(w.(rows := Update(w.rows, a.task.key, row), records := records), id, Finished(row));
    forall j | j in v.attempts ensures AttemptOk(v, v.attempts[j]) {
      assert w.attempts[j].task.key == a.task.key && w.attempts[j].Live() ==> j == id;
      assert AttemptOk(w, w.attempts[j]);
    }
    forall j | j in v.passes ensures PassOk(v, v.passes[j]) {
      assert PassOk(w, w.passes[j]);
    }
    forall t: Task | t.key in v.rows && v.rows[t.key].status.NeedsReview?
      ensures v.rows[t.key] == ReviewRow(ReviewReason(t.call.tool))
    {
      if t.key == a.task.key { SameKeySameTool(t.call, a.task.call); }
    }
  }

  /** A row that was not there appears, pending, under the attempt that put it there. */
  lemma RowAppears(w: World, id: nat, executes: multiset<Key>)
    requires SerialOk(w) && At(w, id, Inserting) && w.attempts[id].task.key !in w.rows
    ensures SerialOk(Move(w.(rows := w.rows[w.attempts[id].task.key := PENDING_ROW], executes := executes), id, Granted))
  {
    var k := w.attempts[id].task.key;
    var v := Move(w.(rows := w.rows[k := PENDING_ROW], executes := executes), id, Granted);
    forall j | j in v.attempts ensures AttemptOk(v, v.attempts[j]) {
      assert AttemptOk(w, w.attempts[j]);
    }
    forall j | j in v.passes ensures PassOk(v, v.passes[j]) {
      assert PassOk(w, w.passes[j]);
    }
  }

  lemma SerialInsert(effects: Effects, w: World, id: nat)
    requires SerialOk(w) && WorkerEnabled(w, Insert(id))
    ensures SerialOk(WorkerStep(effects, w, Insert(id)))
  {
    var k := w.attempts[id].task.key;
    if k in w.rows { MoveKeeps(w, id, Deciding); } else { RowAppears(w, id, w.executes + multiset{k}); }
  }

  lemma SerialReadBack(effects: Effects, w: World, id: nat)
    requires SerialOk(w) && WorkerEnabled(w, ReadBack(id))
    ensures SerialOk(WorkerStep(effects, w, ReadBack(id)))
  {
    var a := w.attempts[id];
    var pc := AfterDecision(Decide(w.rows[a.task.key], effects(a.task.call.tool)));
    assert Consistent(w.rows[a.task.key]);
    assert AttemptOk(w, Attempt(a.task, pc));
    MoveKeeps(w, id, pc);
  }

  /** Moving an attempt without touching a row. */
  lemma MoveKeeps(w: World, id: nat, pc: AttemptPc)
    requires SerialOk(w) && id in w.attempts && AttemptOk(w, Attempt(w.attempts[id].task, pc))
    ensures SerialOk(Move(w, id, pc))
  {
    var v := Move(w, id, pc);
    forall j | j in v.attempts ensures AttemptOk(v, v.attempts[j]) {
      assert AttemptOk(w, w.attempts[j]);
    }
    forall j | j in v.passes ensures PassOk(v, v.passes[j]) {
      assert PassOk(w, w.passes[j]);
    }
  }

  lemma SerialStep(effects: Effects, w: World, e: WorkerEvent)
    requires SerialOk(w) && Serial(w) && WorkerEnabled(w, e)
    ensures SerialOk(WorkerStep(effects, w, e))
  {
    match e
    case Insert(id) => SerialInsert(effects, w, id);
    case ReadBack(id) => SerialReadBack(effects, w, id);
    case Start(id) =>
      assert AttemptOk(w, w.attempts[id]);
      MoveKeeps(w, id, Executing);
      SerialFrame(Move(w, id, Executing), WorkerStep(effects, w, e));
    case Record(id, did) =>
      assert AttemptOk(w, w.attempts[id]);
      ClosingKeeps(w, id, RecordOf(did), w.records + multiset{w.attempts[id].task.key});
    case Review(id) =>
      assert AttemptOk(w, w.attempts[id]);
      ClosingKeeps(w, id, ReviewRow(ReviewReason(w.attempts[id].task.call.tool)), w.records);
    case Arrive(id, task) =>
      SerialFrame(w, WorkerStep(effects, w, e));
    case Crash(id) =>
      SerialFrame(w, WorkerStep(effects, w, e));
  }

  /** Nothing but newcomers and departures among the attempts. */
  lemma SerialFrame(w: World, v: World)
    requires SerialOk(w) && v.rows == w.rows && v.passes == w.passes && v.records == w.records
    requires forall j | j in v.attempts :: v.attempts[j].pc.Inserting? || (j in w.attempts && w.attempts[j] == v.attempts[j])
    ensures SerialOk(v)
  {
    forall j | j in v.attempts ensures AttemptOk(v, v.attempts[j]) {
      assert v.attempts[j].pc.Inserting? || AttemptOk(w, w.attempts[j]);
    }
    forall j | j in v.passes ensures PassOk(v, v.passes[j]) {
      assert PassOk(w, w.passes[j]);
    }
  }

  /** The loop moves one pass and writes no row. */
  lemma LoopFrame(w: World, e: LoopEvent)
    requires LoopEnabled(w, e)
    ensures var v := LoopStep(w, e);
            && v == w.(passes := v.passes, enqueues := v.enqueues)
            && forall j | j in v.passes && j != e.id :: j in w.passes && v.passes[j] == w.passes[j]
  {
  }

  /** What a pass is given is what the row it reads says. */
  lemma PassMoves(w: World, e: LoopEvent)
    requires LoopEnabled(w, e)
    ensures var v := LoopStep(w, e); e.id in v.passes && PassOk(w, v.passes[e.id])
  {
  }

  lemma SerialLoopStep(w: World, e: LoopEvent)
    requires SerialOk(w) && LoopEnabled(w, e)
    ensures SerialOk(LoopStep(w, e))
  {
    var v := LoopStep(w, e);
    LoopFrame(w, e);
    PassMoves(w, e);
    forall j | j in v.attempts ensures AttemptOk(v, v.attempts[j]) {
      assert AttemptOk(w, w.attempts[j]);
    }
    forall j | j in v.passes ensures PassOk(v, v.passes[j]) {
      assert j != e.id ==> PassOk(w, w.passes[j]);
    }
  }

  /** Under serial attempts a closed row is never rewritten with anything else. */
  lemma ClosedRowFixed(effects: Effects, w: World, e: WorkerEvent, k: Key)
    requires SerialOk(w) && WorkerEnabled(w, e) && Closed(w, k)
    ensures Closed(WorkerStep(effects, w, e), k) && WorkerStep(effects, w, e).rows[k] == w.rows[k]
  {
    if e.id in w.attempts {
      assert AttemptOk(w, w.attempts[e.id]);
    }
  }

  lemma {:induction false} SerialInv(effects: Effects, w: World, es: seq<Event>, k: Key)
    requires CanRun(effects, w, es) && SerialRun(effects, w, es) && SerialOk(w)
    ensures SerialOk(Run(effects, w, es)) && Serial(Run(effects, w, es))
    ensures Closed(w, k) ==> Closed(Run(effects, w, es), k) && Run(effects, w, es).rows[k] == w.rows[k]
    decreases |es|
  {
    if |es| > 0 {
      if es[0].Worker? {
        SerialStep(effects, w, es[0].we);
        if Closed(w, k) { ClosedRowFixed(effects, w, es[0].we, k); }
      } else {
        SerialLoopStep(w, es[0].le);
      }
      SerialInv(effects, Apply(effects, w, es[0]), es[1..], k);
    }
  }

  /**
   * When attempts do not overlap, a handler starts at most once more than it was lost to a
   * crash before its outcome could be recorded.
   */
  lemma SerialStartsAreBounded(effects: Effects, es: seq<Event>, k: Key)
    requires CanRun(effects, EMPTY, es) && SerialRun(effects, EMPTY, es)
    ensures var w := Run(effects, EMPTY, es); w.starts[k] <= 1 + w.losses[k]
  {
    SerialInv(effects, EMPTY, es, k);
    StartsAreAccountedFor(effects, es, k);
    var w := Run(effects, EMPTY, es);
    if ExecutingOn(w, k) != {} {
      var id :| id in ExecutingOn(w, k);
      assert AttemptOk(w, w.attempts[id]);
      assert ExecutingOn(w, k) == {id} by {
        assert forall j | j in ExecutingOn(w, k) :: w.attempts[j].Live();
      }
    }
  }

  /**
   * When attempts do not overlap, the first outcome recorded for a key is the one every later
   * delivery answers with and the only one a waiting loop is ever given.
   */
  lemma SerialDeliveriesAgree(effects: Effects, es: seq<Event>, more: seq<Event>, id: nat, k: Key)
    requires CanRun(effects, EMPTY, es) && SerialRun(effects, EMPTY, es)
    requires var w := Run(effects, EMPTY, es);
             CanRun(effects, w, more) && SerialRun(effects, w, more) && Closed(w, k)
    ensures var w, v := Run(effects, EMPTY, es), Run(effects, Run(effects, EMPTY, es), more);
            && k in v.rows && v.rows[k] == w.rows[k]
            && (id in v.attempts && v.attempts[id].task.key == k && v.attempts[id].pc.Finished? ==>
                  v.attempts[id].pc.outcome == w.rows[k])
            && (id in v.passes && v.passes[id].task.key == k && v.passes[id].pc.Collected? ==>
                  v.passes[id].pc.outcome == w.rows[k])
  {
    SerialInv(effects, EMPTY, es, k);
    SerialInv(effects, Run(effects, EMPTY, es), more, k);
    var v := Run(effects, Run(effects, EMPTY, es), more);
    if id in v.attempts { assert AttemptOk(v, v.attempts[id]); }
    if id in v.passes { assert PassOk(v, v.passes[id]); }
  }

  // --- The loop's side of a durable call ---------------------------------------------

  /** The passes that found no row and have not queued the call yet. */
  function MayEnqueue(w: World, k: Key): set<nat> {
    set id | id in w.passes && w.passes[id].task.key == k && w.passes[id].pc.Enqueueing?
  }

  lemma OnePass(w: World, e: LoopEvent, k: Key)
    requires LoopEnabled(w, e)
    ensures var v := LoopStep(w, e); forall j | j != e.id :: j in MayEnqueue(v, k) <==> j in MayEnqueue(w, k)
  {
    var v := LoopStep(w, e);
    assert forall j | j != e.id :: (j in v.passes <==> j in w.passes) && (j in w.passes ==> v.passes[j] == w.passes[j]);
  }

  lemma EnqueuesMove(w: World, e: LoopEvent, k: Key)
    requires LoopEnabled(w, e) && k in w.rows
    ensures var v := LoopStep(w, e);
            && v.rows == w.rows
            && v.enqueues[k] + (if e.id in MayEnqueue(v, k) then 1 else 0)
               <= w.enqueues[k] + (if e.id in MayEnqueue(w, k) then 1 else 0)
  {
  }

  lemma EnqueuesDwindle(w: World, e: LoopEvent, k: Key)
    requires LoopEnabled(w, e) && k in w.rows
    ensures var v := LoopStep(w, e);
            && v.rows == w.rows
            && v.enqueues[k] + |MayEnqueue(v, k)| <= w.enqueues[k] + |MayEnqueue(w, k)|
  {
    var v := LoopStep(w, e);
    OnePass(w, e, k);
    EnqueuesMove(w, e, k);
    SizesApart(MayEnqueue(v, k), MayEnqueue(w, k), e.id);
  }

  /**
   * Once any worker has claimed a call, no pass that has yet to look queues it, on any worker
   * and after any resume: what may still be queued is what was already being queued.
   */
  lemma {:induction false} ClaimedCallsAreNotQueued(effects: Effects, w: World, es: seq<Event>, k: Key)
    requires CanRun(effects, w, es) && k in w.rows
    ensures k in Run(effects, w, es).rows
    ensures Run(effects, w, es).enqueues[k] <= w.enqueues[k] + |MayEnqueue(w, k)|
    decreases |es|
  {
    if |es| > 0 {
      var v := Apply(effects, w, es[0]);
      if es[0].Loop? {
        EnqueuesDwindle(w, es[0].le, k);
      } else {
        assert v.passes == w.passes && v.enqueues == w.enqueues;
        assert MayEnqueue(v, k) == MayEnqueue(w, k);
      }
      ClaimedCallsAreNotQueued(effects, v, es[1..], k);
    }
  }

  /** What a pass has been given: an answer, from a row that was closed with one. */
  predicate GivenAnswer(p: Pass) {
    p.pc.Collected? ==> p.pc.outcome.status.Succeeded? || p.pc.outcome.status.Failed?
  }

  lemma AnswerStep(w: World, e: LoopEvent)
    requires LoopEnabled(w, e)
    requires forall id | id in w.passes :: GivenAnswer(w.passes[id])
    ensures var v := LoopStep(w, e);
            v.rows == w.rows && forall id | id in v.passes :: GivenAnswer(v.passes[id])
  {
  }

  /** The loop never hands over a row that is pending or under review, and writes none. */
  lemma {:induction false} OnlyAnswersAreCollected(effects: Effects, w: World, es: seq<Event>)
    requires CanRun(effects, w, es)
    requires forall id | id in w.passes :: GivenAnswer(w.passes[id])
    ensures forall id | id in Run(effects, w, es).passes :: GivenAnswer(Run(effects, w, es).passes[id])
    ensures (forall e | e in es :: e.Loop?) ==> Run(effects, w, es).rows == w.rows
    decreases |es|
  {
    if |es| > 0 {
      var v := Apply(effects, w, es[0]);
      if es[0].Loop? { AnswerStep(w, es[0].le); }
      OnlyAnswersAreCollected(effects, v, es[1..]);
    }
  }
}
