/** The queue with its worker attached: tasks run at once, later, again, or not at all. */
module TaskQueue {
  import opened Idempotency
  import opened ToolLedger

  datatype Delivery = Immediate | Deferred | Unavailable

  /** All that deliveries can change: the rows, and which handlers have started. */
  datatype Trace = Trace(rows: Rows, started: seq<Key>)

  predicate Runnable(registry: Registry, d: TaskData) {
    d.call.tool in registry && registry[d.call.tool].accepts(d.call.args)
  }

  /** What one delivery leaves behind. */
  function AfterTask(registry: Registry, behaviour: (nat, Call) -> HandlerResult, t: Trace, d: TaskData): Trace {
    if !Runnable(registry, d) then t
    else
      var effect := registry[d.call.tool].effect;
      var row := RowAfter(t.rows, d.key, effect, d.call.tool, behaviour(|t.started|, d.call));
      Trace(t.rows[d.key := row], t.started + if Authorised(t.rows, d.key, effect) then [d.key] else [])
  }

  /** A worker keeps the exception of a call it cannot run, or whose handler raised. */
  predicate Crashes(registry: Registry, behaviour: (nat, Call) -> HandlerResult, t: Trace, d: TaskData) {
    !Runnable(registry, d)
    || (Authorised(t.rows, d.key, registry[d.call.tool].effect) && behaviour(|t.started|, d.call).Raised?)
  }

  function AfterTasks(
    registry: Registry, behaviour: (nat, Call) -> HandlerResult, t: Trace, ds: seq<TaskData>): Trace
  {
    if |ds| == 0 then t
    else AfterTask(registry, behaviour, AfterTasks(registry, behaviour, t, ds[..|ds| - 1]), ds[|ds| - 1])
  }

  class FakeTaskQueue {
    const registry: Registry
    const ledger: PostgresToolLedger
    const tools: Handlers
    const mode: Delivery
    var dispatched: seq<TaskData>
    var undelivered: seq<TaskData>
    var crashes: seq<(string, ToolError)>
    ghost var delivered: seq<TaskData>    // every delivery, in order

    constructor (registry: Registry, ledger: PostgresToolLedger, tools: Handlers, mode: Delivery)
      ensures this.registry == registry && this.ledger == ledger && this.tools == tools && this.mode == mode
      ensures dispatched == [] && undelivered == [] && crashes == [] && delivered == []
    {
      this.registry, this.ledger, this.tools, this.mode := registry, ledger, tools, mode;
      dispatched, undelivered, crashes, delivered := [], [], [], [];
    }

    function State(): Trace
      reads ledger, tools
    {
      Trace(ledger.rows, tools.started)
    }

    /** A publish that fails leaves no task behind. */
    method EnqueueTool(d: TaskData) returns (accepted: bool)
      requires ledger.Valid()
      modifies this, ledger, tools
      ensures ledger.Valid() && (accepted <==> !mode.Unavailable?)
      ensures dispatched == old(dispatched) + if accepted then [d] else []
      ensures undelivered == old(undelivered) + if mode.Deferred? then [d] else []
      ensures delivered == old(delivered) + if mode.Immediate? then [d] else []
      ensures State() == if mode.Immediate? then AfterTask(registry, tools.behaviour, old(State()), d) else old(State())
    {
      if mode.Unavailable? { return false; }
      dispatched := dispatched + [d];
      if mode.Immediate? {
        RunTask(d);
      } else {
        undelivered := undelivered + [d];
      }
      accepted := true;
    }

    /** Runs everything that is queued; what these tasks queue themselves waits its turn. */
    method DeliverAll()
      requires ledger.Valid()
      modifies this, ledger, tools
      ensures ledger.Valid() && undelivered == [] && dispatched == old(dispatched)
      ensures delivered == old(delivered) + old(undelivered)
      ensures State() == AfterTasks(registry, tools.behaviour, old(State()), old(undelivered))
    {
      var pending := undelivered;
      undelivered := [];
      for i := 0 to |pending|
        invariant ledger.Valid() && undelivered == [] && dispatched == old(dispatched)
        invariant delivered == old(delivered) + pending[..i]
        invariant State() == AfterTasks(registry, tools.behaviour, old(State()), pending[..i])
      {
        assert pending[..i + 1][..i] == pending[..i];
        RunTask(pending[i]);
      }
      assert pending[..|pending|] == pending;
    }

    /** At-least-once, on demand: a task that was delivered before. */
    method Redeliver(index: nat)
      requires ledger.Valid() && index < |dispatched|
      modifies this, ledger, tools
      ensures ledger.Valid() && undelivered == old(undelivered) && dispatched == old(dispatched)
      ensures delivered == old(delivered) + [dispatched[index]]
      ensures State() == AfterTask(registry, tools.behaviour, old(State()), dispatched[index])
    {
      RunTask(dispatched[index]);
    }

    /** A crash stays in the worker: the row was closed before it was raised. */
    method RunTask(d: TaskData)
      requires ledger.Valid()
      modifies this`crashes, this`delivered, ledger, tools
      ensures ledger.Valid()
      ensures delivered == old(delivered) + [d]
      ensures if Crashes(registry, tools.behaviour, old(State()), d)
              then |crashes| == |old(crashes)| + 1 && crashes[..|old(crashes)|] == old(crashes)
                   && crashes[|old(crashes)|].0 == d.call.tool
              else crashes == old(crashes)
      ensures State() == AfterTask(registry, tools.behaviour, old(State()), d)
    {
      delivered := delivered + [d];
      var r := ExecuteInvocation(registry, ledger, tools, d.call, d.key);
      if r.Err? {
        crashes := crashes + [(d.call.tool, r.error)];
      }
    }
  }

  // --- At-least-once -----------------------------------------------------------------

  predicate Settled(t: Trace, k: Key) { k in t.rows && t.rows[k].IsTerminal() }

  predicate Answered(t: Trace, k: Key) { k in t.rows && (t.rows[k].status.Succeeded? || t.rows[k].status.Failed?) }

  /** Delivering a task twice is the same as delivering it once, whatever the ledger said. */
  lemma RedeliveryChangesNothing(
    registry: Registry, behaviour: (nat, Call) -> HandlerResult, t: Trace, d: TaskData)
    ensures var once := AfterTask(registry, behaviour, t, d);
            && AfterTask(registry, behaviour, once, d) == once
            && (if Runnable(registry, d) then Settled(once, d.key) else once == t)
  {
    var once := AfterTask(registry, behaviour, t, d);
    if Runnable(registry, d) {
      var twice := AfterTask(registry, behaviour, once, d);
      assert twice.rows == once.rows;
    }
  }

  /** Deliveries never touch an answered row, and settle every task they are given. */
  lemma {:induction false} DeliveriesSettle(
    registry: Registry, behaviour: (nat, Call) -> HandlerResult, t: Trace, ds: seq<TaskData>)
    ensures var after := AfterTasks(registry, behaviour, t, ds);
            && (forall k | Answered(t, k) :: k in after.rows && after.rows[k] == t.rows[k])
            && (forall k | Settled(t, k) :: Settled(after, k))
            && (forall d | d in ds && Runnable(registry, d) :: Settled(after, d.key))
            && (forall k | k in after.rows :: k in t.rows || exists d :: d in ds && d.key == k)
  {
    if |ds| > 0 {
      DeliveriesSettle(registry, behaviour, t, ds[..|ds| - 1]);
      assert ds == ds[..|ds| - 1] + [ds[|ds| - 1]];
    }
  }

  function Starts(started: seq<Key>, k: Key): nat { multiset(started)[k] }

  /** However many deliveries of a call there are, its handler starts at most once more. */
  lemma {:induction false} OneStartPerKey(
    registry: Registry, behaviour: (nat, Call) -> HandlerResult, t: Trace, ds: seq<TaskData>, k: Key)
    ensures var after := AfterTasks(registry, behaviour, t, ds);
            && Starts(after.started, k) + (if Settled(after, k) then 0 else 1)
               <= Starts(t.started, k) + (if Settled(t, k) then 0 else 1)
            && (Settled(t, k) ==> Settled(after, k))
  {
    if |ds| > 0 {
      OneStartPerKey(registry, behaviour, t, ds[..|ds| - 1], k);
    }
  }
}
