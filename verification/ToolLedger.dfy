/** The ledger as the store implements it, and the protocol both processes run over it. */
module ToolLedger {
  import opened Wrappers
  import opened Json
  import opened Idempotency

  class PostgresToolLedger {
    var rows: Rows

    predicate Valid()
      reads this
    {
      RowsOk(rows)
    }

    constructor ()
      ensures Valid() && rows == map[]
    {
      rows := map[];
    }

    /** Insert first; a conflict is answered from the row that won. */
    method Begin(effect: EffectClass, key: Key) returns (d: Decision)
      requires Valid()
      modifies this
      ensures Valid()
      ensures key !in old(rows) ==> rows == old(rows)[key := Outcome(Pending, None, false)] && d.action == Execute
      ensures key in old(rows) ==>
                && rows == old(rows) && d == Decide(old(rows)[key], effect)
                && match old(rows)[key].status
                   case Pending => d.action == if effect == Unsafe then Refuse else ReExecute
                   case NeedsReview => d.action == Refuse
                   case _ => d == Decision(Replay, old(rows)[key].result, old(rows)[key].isError)
    {
      if key !in rows {
        rows := rows[key := PENDING_ROW];
        return Decision(Execute, None, false);
      }
      match rows[key].status {
        case Succeeded => d := Decision(Replay, rows[key].result, rows[key].isError);
        case Failed => d := Decision(Replay, rows[key].result, rows[key].isError);
        case Pending => d := Decision(ResolvePending(effect), None, false);
        case NeedsReview => d := Decision(Refuse, None, false);
      }
    }

    method LookupRow(key: Key) returns (o: Option<Outcome>)
      ensures o == Lookup(rows, key)
    {
      if key !in rows { return None; }
      o := Some(rows[key]);
    }

    method Complete(key: Key, result: Text, isError: bool)
      requires Valid()
      modifies this
      ensures Valid()
      ensures rows == if key in old(rows)
                      then old(rows)[key := Outcome(if isError then Failed else Succeeded, Some(result), isError)]
                      else old(rows)
    {
      var status := if isError then Failed else Succeeded;
      if key in rows {
        rows := rows[key := Outcome(status, Some(result), isError)];
      }
    }

    method MarkNeedsReview(key: Key, reason: Text)
      requires Valid()
      modifies this
      ensures Valid()
      ensures rows == if key in old(rows)
                      then old(rows)[key := Outcome(NeedsReview, Some(reason), true)]
                      else old(rows)
    {
      if key in rows {
        rows := rows[key := Outcome(NeedsReview, Some(reason), true)];
      }
    }
  }

  // --- Tools -------------------------------------------------------------------------

  /** One registered tool; `accepts` stands for its input model. */
  datatype ToolSpec = ToolSpec(name: string, effect: EffectClass, durable: bool, accepts: Value -> bool)

  type Registry = map<string, ToolSpec>

  datatype ToolError = NotFound | InputInvalid | Crashed(detail: Text)

  /**
   * The tools' side of the world. What a handler does is an arbitrary function of the call
   * and of how many handlers started before it; every start is kept.
   */
  class Handlers {
    const behaviour: (nat, Call) -> HandlerResult
    var started: seq<Key>

    constructor (behaviour: (nat, Call) -> HandlerResult)
      ensures started == [] && this.behaviour == behaviour
    {
      this.behaviour := behaviour;
      started := [];
    }

    method Invoke(c: Call, key: Key) returns (h: HandlerResult)
      modifies this
      ensures started == old(started) + [key]
      ensures h == behaviour(|old(started)|, c)
    {
      h := behaviour(|started|, c);
      started := started + [key];
    }
  }

  /** Does this ledger allow the handler to start? */
  predicate Authorised(rows: Rows, key: Key, effect: EffectClass) {
    key !in rows || (rows[key].status.Pending? && !effect.Unsafe?)
  }

  /** The row one call of the protocol leaves, when its handler would do `h`. */
  function RowAfter(rows: Rows, key: Key, effect: EffectClass, tool: string, h: HandlerResult): Outcome {
    if Authorised(rows, key, effect) then RecordOf(h)
    else if rows[key].status.Succeeded? || rows[key].status.Failed? then rows[key]
    else ReviewRow(ReviewReason(tool))
  }

  predicate Accepts(registry: Registry, c: Call) { c.tool in registry && registry[c.tool].accepts(c.args) }

  /** The handler started once, and the row and the answer are what it came to; a crash is answered as one. */
  predicate Ran(
    h: HandlerResult, row: Outcome, r: Result<Outcome, ToolError>, key: Key, before: seq<Key>, after: seq<Key>)
  {
    && after == before + [key] && Closes(h, row)
    && r == if h.Raised? then Err(Crashed(h.detail)) else Ok(row)
  }

  /**
   * A call that had a row. An answer is given again. An interrupted call runs again, but for
   * an unsafe one: that is put under review and stays there. No handler starts otherwise.
   */
  predicate Found(
    was: Outcome, effect: EffectClass, h: HandlerResult, row: Outcome, r: Result<Outcome, ToolError>,
    key: Key, before: seq<Key>, after: seq<Key>)
  {
    match was.status
    case Pending =>
      if effect == Unsafe then after == before && r == Ok(row) && row.status.NeedsReview? && row.isError
      else Ran(h, row, r, key, before, after)
    case NeedsReview => after == before && r == Ok(row) && row.status.NeedsReview? && row.isError
    case _ => after == before && row == was && r == Ok(was)
  }

  /** The second half of the protocol: the handler runs and its outcome is written at once. */
  method RunAndRecord(ledger: PostgresToolLedger, tools: Handlers, c: Call, key: Key)
    returns (r: Result<Outcome, ToolError>)
    requires ledger.Valid()
    modifies ledger, tools
    ensures ledger.Valid()
    ensures var h := tools.behaviour(|old(tools.started)|, c);
            && ledger.rows == Update(old(ledger.rows), key, RecordOf(h))
            && tools.started == old(tools.started) + [key]
            && r == if h.Raised? then Err(Crashed(h.detail)) else Ok(RecordOf(h))
    ensures var h := tools.behaviour(|old(tools.started)|, c);
            && (key in old(ledger.rows) ==> Closes(h, ledger.rows[key]))
            && (if r.Ok? then Closes(h, r.value) else h.Raised? && r.error == Crashed(h.detail))
  {
    var h := tools.Invoke(c, key);
    match h {
      case Declared(message) =>
        ledger.Complete(key, message, true);
        return Ok(Outcome(Failed, Some(message), true));
      case Raised(detail) =>
        ledger.Complete(key, detail, true);
        return Err(Crashed(detail));
      case Returned(output) =>
        var kept := Truncate(output);
        ledger.Complete(key, kept, false);
        return Ok(Outcome(Succeeded, Some(kept), false));
    }
  }

  /**
   * Claim, execute, record. On return the row is closed, the handler started exactly when
   * the ledger as found allowed it, and the answer is what the row now says; a handler's
   * crash is recorded before it is reported.
   */
  method ExecuteInvocation(
    registry: Registry, ledger: PostgresToolLedger, tools: Handlers, c: Call, key: Key)
    returns (r: Result<Outcome, ToolError>)
    requires ledger.Valid()
    modifies ledger, tools
    ensures ledger.Valid()
    ensures c.tool !in registry ==> r == Err(NotFound)
    ensures c.tool in registry && !registry[c.tool].accepts(c.args) ==> r == Err(InputInvalid)
    ensures r == Err(NotFound) || r == Err(InputInvalid) ==>
              && (c.tool in registry ==> !registry[c.tool].accepts(c.args))
              && ledger.rows == old(ledger.rows) && tools.started == old(tools.started)
    ensures c.tool in registry && registry[c.tool].accepts(c.args) ==>
              var effect, h := registry[c.tool].effect, tools.behaviour(|old(tools.started)|, c);
              var runs := Authorised(old(ledger.rows), key, effect);
              var row := RowAfter(old(ledger.rows), key, effect, c.tool, h);
              && row.IsTerminal()
              && ledger.rows == old(ledger.rows)[key := row]
              && tools.started == old(tools.started) + (if runs then [key] else [])
              && r == if runs && h.Raised? then Err(Crashed(h.detail)) else Ok(row)
    ensures Accepts(registry, c) && key in old(ledger.rows) ==>
              Found(old(ledger.rows)[key], registry[c.tool].effect, tools.behaviour(|old(tools.started)|, c),
                    ledger.rows[key], r, key, old(tools.started), tools.started)
    ensures Accepts(registry, c) && key !in old(ledger.rows) ==>
              Ran(tools.behaviour(|old(tools.started)|, c), ledger.rows[key], r, key, old(tools.started), tools.started)
    ensures forall k | k in old(ledger.rows) && k != key :: k in ledger.rows && ledger.rows[k] == old(ledger.rows)[k]
  {
    if c.tool !in registry { return Err(NotFound); }
    var spec := registry[c.tool];
    if !spec.accepts(c.args) { return Err(InputInvalid); }

    var decision := ledger.Begin(spec.effect, key);
    match decision.action {
      case Replay =>
        return Ok(Outcome(if decision.isError then Failed else Succeeded, decision.result, decision.isError));
      case Refuse =>
        var reason := ReviewReason(c.tool);
        ledger.MarkNeedsReview(key, reason);
        return Ok(Outcome(NeedsReview, Some(reason), true));
      case Execute =>
      case ReExecute =>
    }

    r := RunAndRecord(ledger, tools, c, key);
  }
}
