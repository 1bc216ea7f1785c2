/**
 * The run store: each transaction as a function of one run's rows, and the store itself.
 *
 * A step row and a message row carry their index, and a table refuses a second row with the
 * same one; that the indexes come out contiguous is something to prove, not assumed here.
 */
module RunStore {
  import opened Wrappers
  import opened Json
  import opened Messages
  import opened RunState

  type Owner = string

  datatype Lease = Lease(owner: Owner, expiresAt: int)

  datatype MessageRow = MessageRow(idx: nat, message: WireMessage, stepIdx: nat)

  datatype RunRow = RunRow(
    status: RunStatus,
    query: Text,
    limits: StoredLimits,
    stepsTaken: nat,
    inputTokens: nat,
    outputTokens: nat,
    cacheTokens: nat,
    retriesUsed: nat,
    lease: Option<Lease>,
    answer: Option<Text>,
    error: Option<ErrorCode>,
    steps: seq<StepRecord>,
    messages: seq<MessageRow>)

  datatype StoreError = StepAlreadyCommitted | RunNotFound | Unreadable

  function NewRow(query: Text, limits: RunLimits): RunRow {
    RunRow(Queued, query, limits.AsStored(), 0, 0, 0, 0, 0, None, None, None, [], [])
  }

  // --- commit_step -------------------------------------------------------------------

  predicate StepTaken(row: RunRow, idx: nat) {
    exists i :: 0 <= i < |row.steps| && row.steps[i].idx == idx
  }

  predicate MessageTaken(row: RunRow, idx: nat) {
    exists i :: 0 <= i < |row.messages| && row.messages[i].idx == idx
  }

  /** The rows a batch becomes: numbered on from `first`, all of one step. */
  function MessageRows(ms: seq<Message>, first: nat, stepIdx: nat): (rows: seq<MessageRow>)
    ensures |rows| == |ms|
  {
    seq(|ms|, i requires 0 <= i < |ms| => MessageRow(first + i, ToWire(ms[i]), stepIdx))
  }

  /** Either unique constraint refuses the whole transaction. */
  predicate CommitRefused(row: RunRow, step: StepRecord, ms: seq<Message>) {
    StepTaken(row, step.idx)
    || exists idx :: |row.messages| <= idx < |row.messages| + |ms| && MessageTaken(row, idx)
  }

  function Committed(row: RunRow, step: StepRecord, ms: seq<Message>): RunRow {
    row.(steps := row.steps + [step],
         messages := row.messages + MessageRows(ms, |row.messages|, step.idx),
         stepsTaken := step.idx + 1,
         inputTokens := row.inputTokens + step.usage.input,
         outputTokens := row.outputTokens + step.usage.output,
         cacheTokens := row.cacheTokens + step.usage.cacheRead,
         status := if row.status.Queued? then Running else row.status)
  }

  function CommitStep(row: RunRow, step: StepRecord, ms: seq<Message>): Result<RunRow, StoreError> {
    if CommitRefused(row, step, ms) then Err(StepAlreadyCommitted) else Ok(Committed(row, step, ms))
  }

  // --- The other writes --------------------------------------------------------------

  function Finish(row: RunRow, outcome: RunOutcome): RunRow {
    row.(status := outcome.status, answer := outcome.answer, error := outcome.error, lease := None)
  }

  function RecordRetry(row: RunRow): RunRow {
    row.(retriesUsed := row.retriesUsed + 1)
  }

  predicate Claimable(row: RunRow, now: int) {
    && (row.status.Queued? || row.status.Running? || row.status.Paused?)
    && (row.lease.None? || row.lease.value.expiresAt < now)
  }

  function Claimed(row: RunRow, now: int, owner: Owner, ttl: int): RunRow {
    row.(lease := Some(Lease(owner, now + ttl)), status := Running)
  }

  predicate Renewable(row: RunRow, now: int, owner: Owner) {
    row.lease.Some? && row.lease.value.owner == owner && row.lease.value.expiresAt > now
  }

  function Renewed(row: RunRow, now: int, owner: Owner, ttl: int): RunRow {
    row.(lease := Some(Lease(owner, now + ttl)))
  }

  function Released(row: RunRow, owner: Owner, status: RunStatus): RunRow {
    if row.lease.Some? && row.lease.value.owner == owner
    then row.(lease := None, status := status)
    else row
  }

  // --- load --------------------------------------------------------------------------

  function InsertStep(s: StepRecord, ss: seq<StepRecord>): seq<StepRecord> {
    if |ss| == 0 || s.idx <= ss[0].idx then [s] + ss else [ss[0]] + InsertStep(s, ss[1..])
  }

  /** `ORDER BY idx`. */
  function StepsInOrder(ss: seq<StepRecord>): seq<StepRecord> {
    if |ss| == 0 then [] else InsertStep(ss[0], StepsInOrder(ss[1..]))
  }

  function InsertMessage(m: MessageRow, ms: seq<MessageRow>): seq<MessageRow> {
    if |ms| == 0 || m.idx <= ms[0].idx then [m] + ms else [ms[0]] + InsertMessage(m, ms[1..])
  }

  function MessagesInOrder(ms: seq<MessageRow>): seq<MessageRow> {
    if |ms| == 0 then [] else InsertMessage(ms[0], MessagesInOrder(ms[1..]))
  }

  function WireOf(ms: seq<MessageRow>): (ws: seq<WireMessage>)
    ensures |ws| == |ms|
  {
    seq(|ms|, i requires 0 <= i < |ms| => ms[i].message)
  }

  function UsageOf(row: RunRow): RunUsage {
    RunUsage(row.stepsTaken, row.inputTokens, row.outputTokens, row.cacheTokens)
  }

  function Load(row: RunRow): Result<RunRecord, StoreError> {
    match AllFromWire(WireOf(MessagesInOrder(row.messages)))
    case Err(_) => Err(Unreadable)
    case Ok(ms) =>
      Ok(RunRecord(row.status, row.query, row.limits.AsLoaded(), UsageOf(row), ms, StepsInOrder(row.steps),
                   row.retriesUsed))
  }

  /** A run comes back with the limits it was created with exactly when three of them were the defaults. */
  lemma LimitsSurviveIffDefault(query: Text, limits: RunLimits)
    ensures Load(NewRow(query, limits)).Ok?
    ensures Load(NewRow(query, limits)).value.limits == limits <==> limits.HasDefaults()
  {
    assert MessagesInOrder(NewRow(query, limits).messages) == [];
  }

  /** A run created to retry once is loaded as one that may retry six times. */
  lemma RetryLimitIsLost(query: Text, limits: RunLimits)
    requires limits.maxRunRetries == 1
    ensures Load(NewRow(query, limits)).Ok? && Load(NewRow(query, limits)).value.limits.maxRunRetries == 6
  {
    LimitsSurviveIffDefault(query, limits);
  }

  predicate StepsByIdx(ss: seq<StepRecord>) { forall i, j :: 0 <= i < j < |ss| ==> ss[i].idx <= ss[j].idx }

  predicate MessagesByIdx(ms: seq<MessageRow>) { forall i, j :: 0 <= i < j < |ms| ==> ms[i].idx <= ms[j].idx }

  lemma {:induction false} StepsInOrderAlready(ss: seq<StepRecord>)
    requires StepsByIdx(ss)
    ensures StepsInOrder(ss) == ss
  {
    if |ss| > 0 {
      StepsInOrderAlready(ss[1..]);
      assert ss == [ss[0]] + ss[1..];
    }
  }

  lemma {:induction false} MessagesInOrderAlready(ms: seq<MessageRow>)
    requires MessagesByIdx(ms)
    ensures MessagesInOrder(ms) == ms
  {
    if |ms| > 0 {
      MessagesInOrderAlready(ms[1..]);
      assert ms == [ms[0]] + ms[1..];
    }
  }

  lemma {:induction false} InsertStepKeeps(s: StepRecord, ss: seq<StepRecord>)
    ensures multiset(InsertStep(s, ss)) == multiset(ss) + multiset{s}
  {
    if |ss| > 0 && s.idx > ss[0].idx {
      InsertStepKeeps(s, ss[1..]);
      assert ss == [ss[0]] + ss[1..];
    }
  }

  lemma {:induction false} InsertStepSorts(s: StepRecord, ss: seq<StepRecord>)
    requires StepsByIdx(ss)
    ensures StepsByIdx(InsertStep(s, ss))
    ensures forall x | x in InsertStep(s, ss) :: x == s || x in ss
  {
    if |ss| > 0 && s.idx > ss[0].idx {
      InsertStepSorts(s, ss[1..]);
      var rest := InsertStep(s, ss[1..]);
      forall j | 0 <= j < |rest| ensures ss[0].idx <= rest[j].idx {
        assert rest[j] in rest;
      }
    }
  }

  /** `ORDER BY` on any rows: the same rows, by index. */
  lemma {:induction false} StepsSorted(ss: seq<StepRecord>)
    ensures StepsByIdx(StepsInOrder(ss)) && multiset(StepsInOrder(ss)) == multiset(ss)
  {
    if |ss| > 0 {
      StepsSorted(ss[1..]);
      InsertStepSorts(ss[0], StepsInOrder(ss[1..]));
      InsertStepKeeps(ss[0], StepsInOrder(ss[1..]));
      assert ss == [ss[0]] + ss[1..];
    }
  }

  lemma {:induction false} InsertMessageKeeps(m: MessageRow, ms: seq<MessageRow>)
    ensures multiset(InsertMessage(m, ms)) == multiset(ms) + multiset{m}
  {
    if |ms| > 0 && m.idx > ms[0].idx {
      InsertMessageKeeps(m, ms[1..]);
      assert ms == [ms[0]] + ms[1..];
    }
  }

  lemma {:induction false} InsertMessageSorts(m: MessageRow, ms: seq<MessageRow>)
    requires MessagesByIdx(ms)
    ensures MessagesByIdx(InsertMessage(m, ms))
    ensures forall x | x in InsertMessage(m, ms) :: x == m || x in ms
  {
    if |ms| > 0 && m.idx > ms[0].idx {
      InsertMessageSorts(m, ms[1..]);
      var rest := InsertMessage(m, ms[1..]);
      forall j | 0 <= j < |rest| ensures ms[0].idx <= rest[j].idx {
        assert rest[j] in rest;
      }
    }
  }

  lemma {:induction false} MessagesSorted(ms: seq<MessageRow>)
    ensures MessagesByIdx(MessagesInOrder(ms)) && multiset(MessagesInOrder(ms)) == multiset(ms)
  {
    if |ms| > 0 {
      MessagesSorted(ms[1..]);
      InsertMessageSorts(ms[0], MessagesInOrder(ms[1..]));
      InsertMessageKeeps(ms[0], MessagesInOrder(ms[1..]));
      assert ms == [ms[0]] + ms[1..];
    }
  }

  /** The rows' messages and steps, every one of them, by index. */
  ghost predicate Ordered(row: RunRow, record: RunRecord) {
    && StepsByIdx(record.steps) && multiset(record.steps) == multiset(row.steps)
    && exists ms: seq<MessageRow> ::
         MessagesByIdx(ms) && multiset(ms) == multiset(row.messages) && AllFromWire(WireOf(ms)) == Ok(record.messages)
  }

  /** The columns as they are, and the three limits that have none as 3 attempts, 6 retries and a minute. */
  predicate ReadBack(row: RunRow, record: RunRecord) {
    && record.status == row.status && record.query == row.query && record.retriesUsed == row.retriesUsed
    && record.limits == RunLimits(
                          row.limits.maxSteps, row.limits.tokenBudget, row.limits.maxOutputTokens, 3, 6, 60.0)
    && record.usage == RunUsage(row.stepsTaken, row.inputTokens, row.outputTokens, row.cacheTokens)
  }

  lemma LoadOrders(row: RunRow)
    requires Load(row).Ok?
    ensures Ordered(row, Load(row).value)
  {
    StepsSorted(row.steps);
    MessagesSorted(row.messages);
  }

  // --- What a commit writes, column by column -----------------------------------------

  /** A step row with its index is there, or a message row with one that its messages would get. */
  predicate Clashes(row: RunRow, step: StepRecord, ms: seq<Message>) {
    || (exists s :: s in row.steps && s.idx == step.idx)
    || (exists m :: m in row.messages && |row.messages| <= m.idx < |row.messages| + |ms|)
  }

  /** One more step row, the messages numbered on, the counters advanced, a queued run running. */
  predicate Grown(was: RunRow, step: StepRecord, ms: seq<Message>, row: RunRow) {
    var n := |was.messages|;
    && row.steps == was.steps + [step]
    && |row.messages| == n + |ms| && row.messages[..n] == was.messages
    && (forall i :: 0 <= i < |ms| ==> row.messages[n + i] == MessageRow(n + i, ToWire(ms[i]), step.idx))
    && row.stepsTaken == step.idx + 1
    && row.inputTokens == was.inputTokens + step.usage.input
    && row.outputTokens == was.outputTokens + step.usage.output
    && row.cacheTokens == was.cacheTokens + step.usage.cacheRead
    && row.status == (if was.status == Queued then Running else was.status)
    && row.query == was.query && row.limits == was.limits && row.retriesUsed == was.retriesUsed
    && row.lease == was.lease && row.answer == was.answer && row.error == was.error
  }

  lemma CommitWrites(row: RunRow, step: StepRecord, ms: seq<Message>)
    ensures CommitRefused(row, step, ms) <==> Clashes(row, step, ms)
    ensures Grown(row, step, ms, Committed(row, step, ms))
  {
    if StepTaken(row, step.idx) {
      var i :| 0 <= i < |row.steps| && row.steps[i].idx == step.idx;
      assert row.steps[i] in row.steps;
    }
    if idx :| |row.messages| <= idx < |row.messages| + |ms| && MessageTaken(row, idx) {
      var i :| 0 <= i < |row.messages| && row.messages[i].idx == idx;
      assert row.messages[i] in row.messages;
    }
    if m :| m in row.messages && |row.messages| <= m.idx < |row.messages| + |ms| {
      assert MessageTaken(row, m.idx);
    }
  }

  // --- The store ---------------------------------------------------------------------

  type RunId = nat

  /** `now` is the database's clock; `created` lists the runs oldest first. */
  class PostgresRunStore {
    var runs: map<RunId, RunRow>
    var created: seq<RunId>
    var now: int

    ghost predicate Valid()
      reads this
    {
      forall id :: id in created <==> id in runs
    }

    constructor (now: int)
      ensures Valid() && runs == map[] && created == [] && this.now == now
    {
      runs, created, this.now := map[], [], now;
    }

    method Create(id: RunId, query: Text, limits: RunLimits)
      requires Valid() && id !in runs
      modifies this
      ensures Valid() && now == old(now)
      ensures runs == old(runs)[id := RunRow(
                                        Queued, query,
                                        StoredLimits(limits.maxSteps, limits.tokenBudget, limits.maxOutputTokens),
                                        0, 0, 0, 0, 0, None, None, None, [], [])]
      ensures created == old(created) + [id]
    {
      var kept := StoredLimits(limits.maxSteps, limits.tokenBudget, limits.maxOutputTokens);
      runs := runs[id := RunRow(Queued, query, kept, 0, 0, 0, 0, 0, None, None, None, [], [])];
      created := created + [id];
    }

    method LoadRun(id: RunId) returns (r: Result<RunRecord, StoreError>)
      ensures r == if id in runs then Load(runs[id]) else Err(RunNotFound)
      ensures r.Ok? ==> Ordered(runs[id], r.value) && ReadBack(runs[id], r.value)
    {
      if id !in runs { return Err(RunNotFound); }
      r := Load(runs[id]);
      if r.Ok? { LoadOrders(runs[id]); }
    }

    /** All of the step, its messages and the counters, or none of it. */
    method Commit(id: RunId, step: StepRecord, messages: seq<Message>) returns (r: Result<(), StoreError>)
      requires Valid()
      modifies this`runs
      ensures Valid()
      ensures id !in old(runs) ==> r == Err(RunNotFound) && runs == old(runs)
      ensures id in old(runs) ==>
                match CommitStep(old(runs)[id], step, messages)
                case Ok(row) => r == Ok(()) && runs == old(runs)[id := row]
                case Err(e) => r == Err(e) && runs == old(runs)
      ensures id in old(runs) ==>
                if Clashes(old(runs)[id], step, messages) then r == Err(StepAlreadyCommitted)
                else r.Ok? && id in runs && Grown(old(runs)[id], step, messages, runs[id])
    {
      if id !in runs { return Err(RunNotFound); }
      var row := runs[id];
      CommitWrites(row, step, messages);
      var nextIdx := |row.messages|;
      if StepTaken(row, step.idx) { return Err(StepAlreadyCommitted); }
      var batch: seq<MessageRow> := [];
      for offset := 0 to |messages|
        invariant batch == MessageRows(messages[..offset], nextIdx, step.idx)
        invariant forall idx :: nextIdx <= idx < nextIdx + offset ==> !MessageTaken(row, idx)
      {
        if MessageTaken(row, nextIdx + offset) { return Err(StepAlreadyCommitted); }
        batch := batch + [MessageRow(nextIdx + offset, ToWire(messages[offset]), step.idx)];
      }
      assert messages[..|messages|] == messages;
      row := row.(steps := row.steps + [step], messages := row.messages + batch);
      row := row.(stepsTaken := step.idx + 1,
                  inputTokens := row.inputTokens + step.usage.input,
                  outputTokens := row.outputTokens + step.usage.output,
                  cacheTokens := row.cacheTokens + step.usage.cacheRead);
      if row.status.Queued? {
        row := row.(status := Running);
      }
      runs := runs[id := row];
      r := Ok(());
    }

    method FinishRun(id: RunId, outcome: RunOutcome) returns (r: Result<(), StoreError>)
      requires Valid()
      modifies this`runs
      ensures Valid()
      ensures id !in old(runs) ==> r == Err(RunNotFound) && runs == old(runs)
      ensures id in old(runs) ==> r == Ok(())
      ensures id in old(runs) ==>
                runs == old(runs)[id := old(runs)[id].(
                                          status := outcome.status, answer := outcome.answer,
                                          error := outcome.error, lease := None)]
    {
      if id !in runs { return Err(RunNotFound); }
      var row := runs[id];
      row := row.(status := outcome.status, answer := outcome.answer, error := outcome.error);
      row := row.(lease := None);
      runs := runs[id := row];
      r := Ok(());
    }

    /** Increments in the statement itself, so two callers never read the same total. */
    method ChargeRetry(id: RunId) returns (total: Result<nat, StoreError>)
      requires Valid()
      modifies this`runs
      ensures Valid()
      ensures id !in old(runs) ==> total == Err(RunNotFound) && runs == old(runs)
      ensures id in old(runs) ==>
                && runs == old(runs)[id := old(runs)[id].(retriesUsed := old(runs)[id].retriesUsed + 1)]
                && total == Ok(old(runs)[id].retriesUsed + 1) && total.value == runs[id].retriesUsed
    {
      if id !in runs { return Err(RunNotFound); }
      var next := runs[id].retriesUsed + 1;
      runs := runs[id := runs[id].(retriesUsed := next)];
      total := Ok(next);
    }

    /** One conditional update; the load that follows is a second transaction. */
    method Claim(id: RunId, owner: Owner, ttl: int) returns (taken: bool)
      requires Valid()
      modifies this`runs
      ensures Valid()
      ensures taken <==>
                && id in old(runs) && !old(runs)[id].status.Completed? && !old(runs)[id].status.Failed?
                && (old(runs)[id].lease == None || old(runs)[id].lease.value.expiresAt < now)
      ensures runs == if taken then old(runs)[id := old(runs)[id].(
                                                      lease := Some(Lease(owner, now + ttl)), status := Running)]
                      else old(runs)
    {
      if id !in runs { return false; }
      var row := runs[id];
      if row.status.IsTerminal() { return false; }
      if row.lease.Some? && row.lease.value.expiresAt >= now { return false; }
      runs := runs[id := row.(lease := Some(Lease(owner, now + ttl)), status := Running)];
      taken := true;
    }

    /** The recovery scan: the oldest run nobody is working on, or none if there is none. */
    method ClaimNextReclaimable(owner: Owner, ttl: int) returns (found: Option<RunId>)
      requires Valid()
      modifies this`runs
      ensures Valid()
      ensures found.None? ==> runs == old(runs) && forall id | id in runs :: !Claimable(runs[id], now)
      ensures found.Some? ==>
                && found.value in old(runs) && Claimable(old(runs)[found.value], now)
                && runs == old(runs)[found.value := Claimed(old(runs)[found.value], now, owner, ttl)]
                && exists i :: 0 <= i < |created| && created[i] == found.value
                     && forall j :: 0 <= j < i ==> !Claimable(old(runs)[created[j]], now)
    {
      for i := 0 to |created|
        invariant runs == old(runs)
        invariant forall j :: 0 <= j < i ==> !Claimable(runs[created[j]], now)
      {
        var id := created[i];
        if Claimable(runs[id], now) {
          runs := runs[id := Claimed(runs[id], now, owner, ttl)];
          return Some(id);
        }
      }
      found := None;
    }

    method Renew(id: RunId, owner: Owner, ttl: int) returns (held: bool)
      requires Valid()
      modifies this`runs
      ensures Valid()
      ensures held <==>
                && id in old(runs) && old(runs)[id].lease.Some?
                && old(runs)[id].lease.value.owner == owner && old(runs)[id].lease.value.expiresAt > now
      ensures runs == if held then old(runs)[id := old(runs)[id].(lease := Some(Lease(owner, now + ttl)))]
                      else old(runs)
    {
      if id !in runs || runs[id].lease.None? { return false; }
      var lease := runs[id].lease.value;
      if lease.owner != owner || lease.expiresAt <= now { return false; }
      runs := runs[id := runs[id].(lease := Some(lease.(expiresAt := now + ttl)))];
      held := true;
    }

    method Release(id: RunId, owner: Owner, status: RunStatus)
      requires Valid()
      modifies this`runs
      ensures Valid()
      ensures runs == if id in old(runs) && old(runs)[id].lease.Some? && old(runs)[id].lease.value.owner == owner
                      then old(runs)[id := old(runs)[id].(lease := None, status := status)]
                      else old(runs)
    {
      if id in runs && runs[id].lease.Some? && runs[id].lease.value.owner == owner {
        runs := runs[id := runs[id].(lease := None, status := status)];
      }
    }

    method Tick(later: int)
      requires Valid() && now <= later
      modifies this`now
      ensures Valid() && now == later
    {
      now := later;
    }
  }
}
