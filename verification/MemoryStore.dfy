/**
 * The in-memory store and ledger that stand in for the real ones, and exactly when they do:
 * each operation agrees with its Postgres counterpart except in the cases stated here.
 */
module MemoryStore {
  import opened Wrappers
  import opened Json
  import opened Messages
  import opened RunState
  import opened RunStore
  import RunMachine
  import opened Idempotency
  import opened RunSafety

  /** `_StoredRun`: the record itself, already read back, and the lease beside it. */
  datatype Stored = Stored(
    record: RunRecord, answer: Option<Text>, error: Option<ErrorCode>, lease: Option<Lease>)
  {
    predicate Taken(idx: nat) {
      exists i :: 0 <= i < |record.steps| && record.steps[i].idx == idx
    }

    /** A duplicate raises; so does a block that would not survive the column. */
    function Commit(step: StepRecord, ms: seq<Message>): Result<Stored, StoreError> {
      if Taken(step.idx) then Err(StepAlreadyCommitted)
      else
        match AllFromWire(AllToWire(ms))
        case Err(_) => Err(Unreadable)
        case Ok(replayed) =>
          Ok(this.(record := record.(
                     status := Running, steps := record.steps + [step],
                     messages := record.messages + replayed, usage := record.usage.Plus(step.usage))))
    }

    predicate Claimable(now: int, owner: Owner) {
      !record.status.IsTerminal()
      && !(lease.Some? && lease.value.expiresAt > now && lease.value.owner != owner)
    }

    predicate Idle(now: int) {
      !record.status.IsTerminal() && (lease.None? || lease.value.expiresAt <= now)
    }

    function Claimed(now: int, owner: Owner, ttl: int): Stored {
      this.(record := record.(status := Running), lease := Some(Lease(owner, now + ttl)))
    }

    predicate Renewable(now: int, owner: Owner) {
      lease.Some? && lease.value.owner == owner && lease.value.expiresAt > now
    }

    function Renewed(now: int, ttl: int): Stored
      requires lease.Some?
    {
      this.(lease := Some(lease.value.(expiresAt := now + ttl)))
    }

    function Released(owner: Owner, status: RunStatus): Stored {
      if lease.Some? && lease.value.owner == owner
      then this.(lease := None, record := record.(status := status)) else this
    }

    function Finished(outcome: RunOutcome): Stored {
      Stored(record.(status := outcome.status), outcome.answer, outcome.error, None)
    }

    function Retried(): Stored { this.(record := record.(retriesUsed := record.retriesUsed + 1)) }
  }

  function NewStored(query: Text, limits: RunLimits): Stored {
    Stored(RunRecord(Queued, query, limits, RunUsage(0, 0, 0, 0), [], [], 0), None, None, None)
  }

  class InMemoryRunStore {
    var runs: map<RunId, Stored>
    var created: seq<RunId>

    ghost predicate Valid()
      reads this
    {
      forall id :: id in created <==> id in runs
    }

    constructor ()
      ensures Valid() && runs == map[] && created == []
    {
      runs, created := map[], [];
    }

    method Create(id: RunId, query: Text, limits: RunLimits)
      requires Valid() && id !in runs
      modifies this
      ensures Valid()
      ensures runs == old(runs)[id := NewStored(query, limits)] && created == old(created) + [id]
    {
      var record := RunRecord(Queued, query, limits, RunUsage(0, 0, 0, 0), [], [], 0);
      runs := runs[id := Stored(record, None, None, None)];
      created := created + [id];
    }

    method Load(id: RunId) returns (r: Result<RunRecord, StoreError>)
      ensures r == if id in runs then Ok(runs[id].record) else Err(RunNotFound)
    {
      if id !in runs { return Err(RunNotFound); }
      r := Ok(runs[id].record);
    }

    method CommitStep(id: RunId, step: StepRecord, ms: seq<Message>) returns (r: Result<(), StoreError>)
      requires Valid()
      modifies this`runs
      ensures Valid()
      ensures id !in old(runs) ==> r == Err(RunNotFound) && runs == old(runs)
      ensures id in old(runs) ==>
                match old(runs)[id].Commit(step, ms)
                case Ok(s) => r == Ok(()) && runs == old(runs)[id := s]
                case Err(e) => r == Err(e) && runs == old(runs)
    {
      if id !in runs { return Err(RunNotFound); }
      var s := runs[id];
      for i := 0 to |s.record.steps|
        invariant runs == old(runs) && forall j :: 0 <= j < i ==> s.record.steps[j].idx != step.idx
      {
        if s.record.steps[i].idx == step.idx { return Err(StepAlreadyCommitted); }
      }
      var replayed := AllFromWire(AllToWire(ms));
      if replayed.Err? { return Err(Unreadable); }
      var record := s.record.(usage := s.record.usage.Plus(step.usage), status := Running);
      record := record.(steps := record.steps + [step], messages := record.messages + replayed.value);
      runs := runs[id := s.(record := record)];
      r := Ok(());
    }

    method Claim(id: RunId, owner: Owner, ttl: int, now: int) returns (r: Result<Option<RunRecord>, StoreError>)
      requires Valid()
      modifies this`runs
      ensures Valid()
      ensures id !in old(runs) ==> r == Err(RunNotFound) && runs == old(runs)
      ensures id in old(runs) ==>
                if old(runs)[id].Claimable(now, owner)
                then runs == old(runs)[id := old(runs)[id].Claimed(now, owner, ttl)] && r == Ok(Some(runs[id].record))
                else runs == old(runs) && r == Ok(None)
    {
      if id !in runs { return Err(RunNotFound); }
      var s := runs[id];
      if s.record.status.IsTerminal() { return Ok(None); }
      var held := s.lease.Some? && s.lease.value.expiresAt > now;
      if held && s.lease.value.owner != owner { return Ok(None); }
      runs := runs[id := s.(lease := Some(Lease(owner, now + ttl)), record := s.record.(status := Running))];
      r := Ok(Some(runs[id].record));
    }

    /** The oldest idle run, or none if there is none. */
    method ClaimNextReclaimable(owner: Owner, ttl: int, now: int) returns (found: Option<RunId>)
      requires Valid()
      modifies this`runs
      ensures Valid()
      ensures found.None? ==> runs == old(runs) && forall id | id in runs :: !runs[id].Idle(now)
      ensures found.Some? ==>
                && found.value in old(runs) && old(runs)[found.value].Idle(now)
                && runs == old(runs)[found.value := old(runs)[found.value].Claimed(now, owner, ttl)]
                && exists i :: 0 <= i < |created| && created[i] == found.value
                     && forall j :: 0 <= j < i ==> !old(runs)[created[j]].Idle(now)
    {
      for i := 0 to |created|
        invariant runs == old(runs) && forall j :: 0 <= j < i ==> !runs[created[j]].Idle(now)
      {
        var id := created[i];
        if runs[id].Idle(now) {
          var _ := Claim(id, owner, ttl, now);
          return Some(id);
        }
      }
      found := None;
    }

    method Renew(id: RunId, owner: Owner, ttl: int, now: int) returns (held: bool)
      requires Valid() && id in runs
      modifies this`runs
      ensures Valid() && (held <==> old(runs)[id].Renewable(now, owner))
      ensures runs == if held then old(runs)[id := old(runs)[id].Renewed(now, ttl)] else old(runs)
    {
      var s := runs[id];
      if s.lease.None? || s.lease.value.owner != owner { return false; }
      if s.lease.value.expiresAt <= now { return false; }
      runs := runs[id := s.(lease := Some(Lease(owner, now + ttl)))];
      held := true;
    }

    method Release(id: RunId, owner: Owner, status: RunStatus)
      requires Valid() && id in runs
      modifies this`runs
      ensures Valid() && runs == old(runs)[id := old(runs)[id].Released(owner, status)]
    {
      var s := runs[id];
      if s.lease.Some? && s.lease.value.owner == owner {
        s := s.(lease := None, record := s.record.(status := status));
      }
      runs := runs[id := s];
    }

    method Finish(id: RunId, outcome: RunOutcome)
      requires Valid() && id in runs
      modifies this`runs
      ensures Valid() && runs == old(runs)[id := old(runs)[id].Finished(outcome)]
    {
      var s := runs[id].(lease := None);
      s := s.(answer := outcome.answer, error := outcome.error, record := s.record.(status := outcome.status));
      runs := runs[id := s];
    }

    method RecordRetry(id: RunId) returns (total: nat)
      requires Valid() && id in runs
      modifies this`runs
      ensures Valid() && runs == old(runs)[id := old(runs)[id].Retried()] && total == runs[id].record.retriesUsed
    {
      total := runs[id].record.retriesUsed + 1;
      runs := runs[id := runs[id].(record := runs[id].record.(retriesUsed := total))];
    }
  }

  // --- The two stores side by side ---------------------------------------------------

  /** The stored run is what the row loads as, limits apart: of those the row has three. */
  predicate Mirrors(s: Stored, row: RunRow) {
    && Load(row).Ok? && s.record == Load(row).value.(limits := s.record.limits)
    && s.record.limits.AsStored() == row.limits
    && s.answer == row.answer && s.error == row.error && s.lease == row.lease
  }

  /** A new run mirrors its row, whatever its limits. */
  lemma CreatesAgree(query: Text, limits: RunLimits)
    ensures Mirrors(NewStored(query, limits), NewRow(query, limits))
  {
    LimitsSurviveIffDefault(query, limits);
  }

  /**
   * And a run that mirrors its row loads from both stores alike exactly when the limits that
   * have no column are the defaults: the in-memory store keeps them all.
   */
  lemma LoadsAgree(s: Stored, row: RunRow)
    requires Mirrors(s, row)
    ensures Load(row) == Ok(s.record) <==> s.record.limits.HasDefaults()
  {
  }

  /** What a row in the shape the loop leaves it in loads as, if it can be read. */
  lemma LoadsAs(c: RunMachine.Config, row: RunRow, batches: seq<seq<Message>>)
    requires RowOk(c, row, batches)
    ensures Load(row).Ok? <==> AllFromWire(WireOf(row.messages)).Ok?
    ensures Load(row).Ok? ==>
              Load(row).value == RunRecord(row.status, row.query, row.limits.AsLoaded(), UsageOf(row),
                                           AllFromWire(WireOf(row.messages)).value, row.steps, row.retriesUsed)
  {
    StepsInOrderAlready(row.steps);
    MessagesInOrderAlready(row.messages);
  }

  lemma RowsWire(rows: seq<MessageRow>, ms: seq<Message>, first: nat, stepIdx: nat)
    ensures WireOf(rows + MessageRows(ms, first, stepIdx)) == WireOf(rows) + AllToWire(ms)
  {
    assert WireOf(MessageRows(ms, first, stepIdx)) == AllToWire(ms);
  }

  lemma CommittedMessages(row: RunRow, step: StepRecord, ms: seq<Message>)
    requires forall i :: 0 <= i < |row.messages| ==> row.messages[i].idx == i
    ensures var all := Committed(row, step, ms).messages;
            MessagesInOrder(all) == all && WireOf(all) == WireOf(row.messages) + AllToWire(ms)
  {
    var all := row.messages + MessageRows(ms, |row.messages|, step.idx);
    forall i | 0 <= i < |all| ensures all[i].idx == i {
    }
    MessagesInOrderAlready(all);
    RowsWire(row.messages, ms, |row.messages|, step.idx);
  }

  lemma CommittedSteps(row: RunRow, step: StepRecord, ms: seq<Message>)
    requires step.idx >= |row.steps| && forall i :: 0 <= i < |row.steps| ==> row.steps[i].idx == i
    ensures StepsInOrder(Committed(row, step, ms).steps) == row.steps + [step]
  {
    StepsInOrderAlready(row.steps + [step]);
  }

  /** One more step, behind those there are. */
  lemma LoadsMore(c: RunMachine.Config, row: RunRow, batches: seq<seq<Message>>, step: StepRecord, ms: seq<Message>)
    requires RowOk(c, row, batches) && step.idx >= |row.steps|
    ensures var row' := Committed(row, step, ms);
            && (Load(row').Ok? <==> AllFromWire(WireOf(row.messages)).Ok? && AllFromWire(AllToWire(ms)).Ok?)
            && (Load(row').Ok? ==>
                  Load(row').value == RunRecord(
                                        row'.status, row.query, row.limits.AsLoaded(), UsageOf(row'),
                                        AllFromWire(WireOf(row.messages)).value + AllFromWire(AllToWire(ms)).value,
                                        row.steps + [step], row.retriesUsed))
  {
    CommittedMessages(row, step, ms);
    CommittedSteps(row, step, ms);
    AllFromWireAppend(WireOf(row.messages), AllToWire(ms));
  }

  lemma TakenAlike(c: RunMachine.Config, s: Stored, row: RunRow, batches: seq<seq<Message>>, step: StepRecord, ms: seq<Message>)
    requires RowOk(c, row, batches) && Mirrors(s, row)
    ensures s.Taken(step.idx) <==> CommitRefused(row, step, ms)
    ensures s.Taken(step.idx) <==> step.idx < |row.steps|
  {
    LoadsAs(c, row, batches);
    RefusedIffTaken(c, row, batches, step, ms);
    assert step.idx < |row.steps| ==> row.steps[step.idx].idx == step.idx;
  }

  /** The counters agree exactly if the step is the next one. */
  lemma CountersAgree(row: RunRow, step: StepRecord, ms: seq<Message>)
    requires UsageOf(row) == Spent(row.steps)
    ensures UsageOf(Committed(row, step, ms)) == UsageOf(row).Plus(step.usage) <==> step.idx == |row.steps|
  {
    SpentSteps(row.steps);
  }

  lemma AcceptedAgree(
    c: RunMachine.Config, s: Stored, row: RunRow, batches: seq<seq<Message>>, step: StepRecord, ms: seq<Message>)
    requires RowOk(c, row, batches) && Mirrors(s, row) && step.idx >= |row.steps| && s.Commit(step, ms).Ok?
    ensures Mirrors(s.Commit(step, ms).value, Committed(row, step, ms))
            <==> step.idx == |row.steps| && (row.status.Queued? || row.status.Running?)
  {
    LoadsAs(c, row, batches);
    LoadsMore(c, row, batches, step, ms);
    CountersAgree(row, step, ms);
    var s', row' := s.Commit(step, ms).value, Committed(row, step, ms);
    assert s'.record.(limits := row.limits.AsLoaded(), status := row'.status, usage := UsageOf(row')) == Load(row').value;
    assert row'.status == Running <==> row.status.Queued? || row.status.Running?;
  }

  /**
   * A commit is accepted by the in-memory store exactly when Postgres accepts it and its
   * messages can be read back; and what both then hold agrees exactly when the step is the
   * next one and the run was QUEUED or RUNNING. Otherwise the fake alone makes it RUNNING.
   */
  lemma CommitsAgree(
    c: RunMachine.Config, s: Stored, row: RunRow, batches: seq<seq<Message>>, step: StepRecord, ms: seq<Message>)
    requires RowOk(c, row, batches) && Mirrors(s, row)
    ensures s.Commit(step, ms).Ok? <==> CommitStep(row, step, ms).Ok? && AllFromWire(AllToWire(ms)).Ok?
    ensures s.Commit(step, ms).Ok? ==>
              (Mirrors(s.Commit(step, ms).value, CommitStep(row, step, ms).value)
               <==> step.idx == |row.steps| && (row.status.Queued? || row.status.Running?))
  {
    TakenAlike(c, s, row, batches, step, ms);
    if s.Commit(step, ms).Ok? { AcceptedAgree(c, s, row, batches, step, ms); }
  }

  /** Messages that cannot be read back: one store refuses them, the other's run is never loaded again. */
  lemma UnreadableCommit(
    c: RunMachine.Config, s: Stored, row: RunRow, batches: seq<seq<Message>>, step: StepRecord, ms: seq<Message>)
    requires RowOk(c, row, batches) && Mirrors(s, row)
    requires step.idx >= |row.steps| && AllFromWire(AllToWire(ms)).Err?
    ensures s.Commit(step, ms) == Err(Unreadable)
    ensures CommitStep(row, step, ms).Ok? && Load(CommitStep(row, step, ms).value) == Err(Unreadable)
  {
    TakenAlike(c, s, row, batches, step, ms);
    LoadsMore(c, row, batches, step, ms);
  }

  /**
   * A claim is answered alike unless a lease is live and its holder's own, or runs out at
   * this very moment: then the fake grants what Postgres refuses.
   */
  lemma ClaimsAgree(s: Stored, row: RunRow, now: int, owner: Owner, ttl: int)
    requires Mirrors(s, row)
    ensures (s.Claimable(now, owner) <==> RunStore.Claimable(row, now))
            <==> (row.status.IsTerminal() || row.lease.None? || row.lease.value.expiresAt < now
                  || (row.lease.value.expiresAt > now && row.lease.value.owner != owner))
    ensures RunStore.Claimable(row, now) ==>
              s.Claimable(now, owner) && Mirrors(s.Claimed(now, owner, ttl), RunStore.Claimed(row, now, owner, ttl))
    ensures (s.Idle(now) <==> RunStore.Claimable(row, now))
            <==> (row.status.IsTerminal() || row.lease.None? || row.lease.value.expiresAt != now)
  {
  }

  /** The other writes agree always. */
  lemma OthersAgree(s: Stored, row: RunRow, now: int, owner: Owner, ttl: int, status: RunStatus, outcome: RunOutcome)
    requires Mirrors(s, row)
    ensures s.Renewable(now, owner) <==> RunStore.Renewable(row, now, owner)
    ensures s.Renewable(now, owner) ==> Mirrors(s.Renewed(now, ttl), RunStore.Renewed(row, now, owner, ttl))
    ensures Mirrors(s.Released(owner, status), RunStore.Released(row, owner, status))
    ensures Mirrors(s.Finished(outcome), RunStore.Finish(row, outcome))
    ensures Mirrors(s.Retried(), RecordRetry(row))
  {
  }

  // --- The ledger --------------------------------------------------------------------

  class InMemoryToolLedger {
    var rows: Rows
    var executions: seq<Key>

    constructor ()
      ensures rows == map[] && executions == []
    {
      rows, executions := map[], [];
    }

    method Begin(effect: EffectClass, key: Key) returns (d: Decision)
      requires RowsOk(rows)
      modifies this`rows
      ensures RowsOk(rows)
      ensures key !in old(rows) ==> rows == old(rows)[key := PENDING_ROW] && d == Decision(Execute, None, false)
      ensures key in old(rows) ==>
                && rows == old(rows) && d == Decide(old(rows)[key], effect)
                && match old(rows)[key].status
                   case Pending => d.action == if effect == Unsafe then Refuse else ReExecute
                   case NeedsReview => d.action == Refuse
                   case _ => d == Decision(Replay, old(rows)[key].result, old(rows)[key].isError)
    {
      if key !in rows {
        rows := rows[key := PENDING_ROW];
        return Decision(Execute, None, false);
      }
      match rows[key].status {
        case Pending => d := Decision(ResolvePending(effect), None, false);
        case NeedsReview => d := Decision(Refuse, None, false);
        case _ => d := Decision(Replay, rows[key].result, rows[key].isError);
      }
    }

    /** Unlike the table's update, an unknown key is an error here: the caller must have begun. */
    method Complete(key: Key, result: Text, isError: bool)
      requires RowsOk(rows) && key in rows
      modifies this
      ensures RowsOk(rows)
      ensures rows == old(rows)[key := Outcome(if isError then InvocationStatus.Failed else Succeeded,
                                               Some(result), isError)]
      ensures executions == old(executions) + [key]
    {
      rows := rows[key := Outcome(if isError then InvocationStatus.Failed else Succeeded, Some(result), isError)];
      executions := executions + [key];
    }

    method MarkNeedsReview(key: Key, reason: Text)
      requires RowsOk(rows) && key in rows
      modifies this`rows
      ensures RowsOk(rows) && rows == old(rows)[key := Outcome(InvocationStatus.NeedsReview, Some(reason), true)]
    {
      rows := rows[key := Outcome(InvocationStatus.NeedsReview, Some(reason), true)];
    }
  }
}
