/**
 * The vocabulary of the tool ledger and its transactions, each as a function of the rows.
 *
 * SHA-256 is taken to be free of collisions: a key is the text that gets hashed.
 */
module Idempotency {
  import opened Wrappers
  import opened Json
  import opened InvocationKey

  datatype EffectClass = ReadOnly | IdempotentWrite | Unsafe

  datatype InvocationStatus = Pending | Succeeded | Failed | NeedsReview

  datatype Action = Execute | Replay | ReExecute | Refuse

  datatype Decision = Decision(action: Action, result: Option<Text>, isError: bool)

  /** A ledger row, and equally what `lookup` reports of one. */
  datatype Outcome = Outcome(status: InvocationStatus, result: Option<Text>, isError: bool) {
    predicate IsTerminal() { !status.Pending? }
  }

  /** The columns a row can hold together: `is_error` repeats the status, results come last. */
  predicate Consistent(o: Outcome) {
    match o.status
    case Pending => o == PENDING_ROW
    case Succeeded => o.result.Some? && !o.isError
    case Failed => o.result.Some? && o.isError
    case NeedsReview => o.result.Some? && o.isError
  }

  predicate RowsOk(rows: Rows) { forall k | k in rows :: Consistent(rows[k]) }

  type Key = string

  type Rows = map<Key, Outcome>

  /** One tool call at one position of one run. */
  datatype Call = Call(runId: string, stepIdx: nat, tool: string, args: Value)

  function KeyOf(c: Call): Key {
    Preimage(c.runId, c.stepIdx, c.tool, c.args)
  }

  /** Run ids and tool names hold no bar, and arguments are parsed JSON. */
  predicate ValidCall(c: Call) {
    BarFree(c.runId) && BarFree(c.tool) && Valid(c.args)
  }

  /** A call and its key, as they travel together in a queued task. */
  datatype TaskData = TaskData(call: Call, key: Key)

  function ResolvePending(effect: EffectClass): Action {
    if effect.Unsafe? then Refuse else ReExecute
  }

  /** The recorded text; a closed row always has one. */
  function Recorded(o: Outcome): Text { if o.result.Some? then o.result.value else [] }

  // --- The transactions --------------------------------------------------------------

  const PENDING_ROW := Outcome(Pending, None, false)

  function Decide(row: Outcome, effect: EffectClass): Decision {
    match row.status
    case Pending => Decision(ResolvePending(effect), None, false)
    case NeedsReview => Decision(Refuse, None, false)
    case _ => Decision(Replay, row.result, row.isError)
  }

  function Completed(result: Text, isError: bool): Outcome {
    Outcome(if isError then Failed else Succeeded, Some(result), isError)
  }

  function ReviewRow(reason: Text): Outcome {
    Outcome(NeedsReview, Some(reason), true)
  }

  /** `UPDATE ... WHERE idempotency_key = key`: no row, no effect. */
  function Update<K(==)>(rows: map<K, Outcome>, key: K, row: Outcome): map<K, Outcome> {
    if key in rows then rows[key := row] else rows
  }

  function Lookup(rows: Rows, key: Key): Option<Outcome> {
    if key in rows then Some(rows[key]) else None
  }

  // --- Running a handler -------------------------------------------------------------

  datatype HandlerResult = Returned(output: Text) | Declared(message: Text) | Raised(detail: Text)

  const MAX_TOOL_RESULT_CHARS := 8000

  /** The mark left behind; its wording is not modelled. */
  const TRUNCATED: Text := [0x0A, 0x2026]

  function Truncate(output: Text): (t: Text)
    ensures |output| <= MAX_TOOL_RESULT_CHARS ==> t == output
    ensures |output| > MAX_TOOL_RESULT_CHARS ==> output[..MAX_TOOL_RESULT_CHARS] < t
  {
    if |output| <= MAX_TOOL_RESULT_CHARS then output
    else output[..MAX_TOOL_RESULT_CHARS] + TRUNCATED
  }

  /** The row an attempt writes once its handler has stopped. */
  function RecordOf(h: HandlerResult): Outcome {
    match h
    case Returned(output) => Completed(Truncate(output), false)
    case Declared(message) => Completed(message, true)
    case Raised(detail) => Completed(detail, true)
  }

  /**
   * How a row must stand for what its handler came to: what was returned, whole up to 8000
   * characters, as a success; what was declared or raised, as an error.
   */
  predicate Closes(h: HandlerResult, row: Outcome) {
    match h
    case Returned(output) =>
      && row.status.Succeeded? && !row.isError && row.result.Some?
      && if |output| <= 8000 then row.result.value == output else output[..8000] < row.result.value
    case Declared(message) => row.status.Failed? && row.isError && row.result == Some(message)
    case Raised(detail) => row.status.Failed? && row.isError && row.result == Some(detail)
  }

  /** Why an interrupted unsafe call is closed: of its wording, only the tool's name matters. */
  function ReviewReason(tool: string): Text {
    T(tool)
  }
}
