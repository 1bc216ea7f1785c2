/**
 * The conversation vocabulary and its stored form.
 *
 * Only three block kinds are interpreted; every other one is carried through untouched.
 * The stored form of a block is a dictionary, as it lies in the JSON column.
 */
module Messages {
  import opened Wrappers
  import opened Json

  datatype Role = User | Assistant

  datatype StopReason = EndTurn | MaxTokens | StopSequence | ToolUse | PauseTurn | Refusal

  datatype Block =
    | TextBlock(text: Text)
    | ToolUseBlock(id: Text, name: Text, input: Value)
    | ToolResultBlock(toolUseId: Text, content: Text, isError: bool)
    | OpaqueBlock(kind: Text, extra: map<string, Value>)

  datatype Message = Message(role: Role, content: seq<Block>)

  /** Token accounting for one request; the fields a step row stores. */
  datatype Usage = Usage(input: nat, output: nat, cacheRead: nat)

  datatype Response = Response(stop: StopReason, content: seq<Block>, usage: Usage)

  type WireBlock = map<string, Value>

  datatype WireMessage = WireMessage(role: Role, content: seq<WireBlock>)

  /** A missing key, or a value of the wrong type. */
  datatype WireError = KeyError | ValidationError

  // --- What the loop reads out of a turn ---------------------------------------------

  function ToolUses(content: seq<Block>): (uses: seq<Block>)
    ensures forall u | u in uses :: u.ToolUseBlock? && u in content
  {
    if |content| == 0 then []
    else (if content[0].ToolUseBlock? then [content[0]] else []) + ToolUses(content[1..])
  }

  lemma {:induction false} ToolUsesAppend(a: seq<Block>, b: seq<Block>)
    ensures ToolUses(a + b) == ToolUses(a) + ToolUses(b)
  {
    if |a| == 0 {
      assert a + b == b;
    } else {
      assert (a + b)[0] == a[0] && (a + b)[1..] == a[1..] + b;
      ToolUsesAppend(a[1..], b);
    }
  }

  /** Where the turn's tool calls stand: every one of them, in order. */
  predicate CallsAt(content: seq<Block>, at: seq<nat>) {
    && (forall j :: 0 <= j < |at| ==> at[j] < |content| && content[at[j]].ToolUseBlock?)
    && (forall i, j :: 0 <= i < j < |at| ==> at[i] < at[j])
    && (forall p: nat :: p < |content| && content[p].ToolUseBlock? ==> p in at)
  }

  /** These places, in order, hold these calls. */
  predicate Picks(content: seq<Block>, at: seq<nat>, uses: seq<Block>) {
    |at| == |uses| && forall j :: 0 <= j < |at| ==> at[j] < |content| && uses[j] == content[at[j]]
  }

  lemma OneMoreBlock(content: seq<Block>, before: seq<nat>) returns (at: seq<nat>)
    requires |content| > 0 && CallsAt(content[..|content| - 1], before)
    ensures at == before + (if content[|content| - 1].ToolUseBlock? then [|content| - 1] else [])
    ensures CallsAt(content, at)
  {
    var n := |content| - 1;
    at := before + (if content[n].ToolUseBlock? then [n] else []);
    forall p: nat | p < |content| && content[p].ToolUseBlock? ensures p in at {
      if p < n { assert content[..n][p] == content[p] && p in before; } else { assert at[|before|] == p; }
    }
  }

  /** A block alone is a call of the turn, or none. */
  lemma OneUse(b: Block)
    ensures ToolUses([b]) == if b.ToolUseBlock? then [b] else []
  {
    assert [b][1..] == [];
  }

  /** The calls read out of a turn are those at all of its tool positions. */
  lemma {:induction false} CallsFound(content: seq<Block>) returns (at: seq<nat>)
    ensures CallsAt(content, at) && Picks(content, at, ToolUses(content))
  {
    if |content| == 0 {
      at := [];
    } else {
      var init, last := content[..|content| - 1], content[|content| - 1];
      var before := CallsFound(init);
      at := OneMoreBlock(content, before);
      assert content == init + [last];
      ToolUsesAppend(init, [last]);
      OneUse(last);
    }
  }

  /** There is one way to list a turn's tool calls. */
  lemma {:induction false} CallsAtOnce(content: seq<Block>, at: seq<nat>, bt: seq<nat>)
    requires CallsAt(content, at) && CallsAt(content, bt)
    ensures at == bt
  {
    if |at| > |bt| { SameCall(content, at, bt, |bt|); }
    if |bt| > |at| { SameCall(content, bt, at, |at|); }
    forall j | 0 <= j < |at| ensures at[j] == bt[j] { SameCall(content, at, bt, j); }
  }

  lemma {:induction false} SameCall(content: seq<Block>, at: seq<nat>, bt: seq<nat>, j: nat)
    requires CallsAt(content, at) && CallsAt(content, bt) && j < |at|
    ensures j < |bt| && bt[j] == at[j]
  {
    assert at[j] in bt;
    var k :| 0 <= k < |bt| && bt[k] == at[j];
    if j > 0 { SameCall(content, at, bt, j - 1); }
    if k > j {
      assert bt[j] in at;
      var i :| 0 <= i < |at| && at[i] == bt[j];
    }
  }

  /** Every text block, joined: the final answer. */
  function AnswerFrom(content: seq<Block>): Text {
    if |content| == 0 then []
    else (if content[0].TextBlock? then content[0].text else []) + AnswerFrom(content[1..])
  }

  lemma {:induction false} AnswerAppend(a: seq<Block>, b: seq<Block>)
    ensures AnswerFrom(a + b) == AnswerFrom(a) + AnswerFrom(b)
  {
    if |a| == 0 {
      assert a + b == b;
    } else {
      assert (a + b)[0] == a[0] && (a + b)[1..] == a[1..] + b;
      AnswerAppend(a[1..], b);
    }
  }

  /** What a block adds to the answer: a text block its text, any other nothing. */
  predicate Adds(b: Block, text: Text) { if b.TextBlock? then text == b.text else text == [] }

  /** Cut at these places, a text falls into what each block of the turn adds to it. */
  predicate CutInto(content: seq<Block>, text: Text, at: seq<nat>) {
    && |at| == |content| + 1 && at[0] == 0 && at[|content|] == |text|
    && forall i: nat :: i < |content| ==> Falls(content, text, at, i)
  }

  predicate Falls(content: seq<Block>, text: Text, at: seq<nat>, i: nat)
    requires i < |content| < |at|
  {
    at[i] <= at[i + 1] <= |text| && Adds(content[i], text[at[i]..at[i + 1]])
  }

  /** The texts of all the turn's text blocks, in order, and nothing else. */
  ghost predicate Joins(content: seq<Block>, text: Text) { exists at: seq<nat> :: CutInto(content, text, at) }

  /** The answer is the joined texts, and the only text that is. */
  lemma AnswerJoins(content: seq<Block>, text: Text)
    ensures Joins(content, text) <==> text == AnswerFrom(content)
  {
    if text == AnswerFrom(content) { var _ := AnswerCuts(content); }
    if Joins(content, text) {
      var at :| CutInto(content, text, at);
      CutsAnswer(content, text, at);
    }
  }

  lemma {:induction false} AnswerCuts(content: seq<Block>) returns (at: seq<nat>)
    ensures CutInto(content, AnswerFrom(content), at)
  {
    if |content| == 0 { return [0]; }
    var n, text := |content| - 1, AnswerFrom(content);
    assert content == content[..n] + [content[n]];
    AnswerAppend(content[..n], [content[n]]);
    var before := AnswerCuts(content[..n]);
    at := before + [|text|];
    forall i: nat | i < |content| ensures Falls(content, text, at, i) {
      if i < n {
        assert Falls(content[..n], AnswerFrom(content[..n]), before, i);
        assert text[at[i]..at[i + 1]] == AnswerFrom(content[..n])[at[i]..at[i + 1]];
      } else {
        assert text[at[i]..at[i + 1]] == AnswerFrom([content[n]]);
      }
    }
  }

  lemma {:induction false} CutsAnswer(content: seq<Block>, text: Text, at: seq<nat>)
    requires CutInto(content, text, at)
    ensures text == AnswerFrom(content)
  {
    if |content| > 0 {
      var n := |content| - 1;
      assert content == content[..n] + [content[n]];
      AnswerAppend(content[..n], [content[n]]);
      var before, k := CutBefore(content, text, at);
      CutsAnswer(content[..n], before, at[..n + 1]);
      assert text == before + text[k..];
    }
  }

  lemma CutBefore(content: seq<Block>, text: Text, at: seq<nat>) returns (before: Text, k: nat)
    requires CutInto(content, text, at) && |content| > 0
    ensures k <= |text| && before == text[..k] && Adds(content[|content| - 1], text[k..])
    ensures CutInto(content[..|content| - 1], before, at[..|content|])
  {
    var n := |content| - 1;
    k := at[n];
    assert Falls(content, text, at, n) && text[k..] == text[k..at[n + 1]];
    before := text[..k];
    var init, cuts := content[..n], at[..n + 1];
    forall i: nat | i < n ensures Falls(init, before, cuts, i) {
      assert Falls(content, text, at, i);
      CutsGrow(content, text, at, i + 1, n);
      assert before[at[i]..at[i + 1]] == text[at[i]..at[i + 1]];
    }
  }

  lemma {:induction false} CutsGrow(content: seq<Block>, text: Text, at: seq<nat>, i: nat, j: nat)
    requires CutInto(content, text, at) && i <= j <= |content|
    ensures at[i] <= at[j]
  {
    if i < j {
      CutsGrow(content, text, at, i, j - 1);
      assert Falls(content, text, at, j - 1);
    }
  }

  // --- Storing a block ---------------------------------------------------------------

  function NullFree(d: WireBlock): WireBlock {
    map k | k in d && d[k] != Null :: d[k]
  }

  /** `model_dump(exclude_none=True)`: an opaque block loses its null entries. */
  function BlockToWire(b: Block): WireBlock {
    match b
    case TextBlock(text) => map["type" := Str(T("text")), "text" := Str(text)]
    case ToolUseBlock(id, name, input) =>
      map["type" := Str(T("tool_use")), "id" := Str(id), "name" := Str(name), "input" := input]
    case ToolResultBlock(id, content, isError) =>
      map["type" := Str(T("tool_result")), "tool_use_id" := Str(id), "content" := Str(content),
          "is_error" := Bool(isError)]
    case OpaqueBlock(kind, extra) => NullFree(extra)["type" := Str(kind)]
  }

  /** Python's `bool(...)` on a JSON value: all but null, false, the zeros and what is empty. */
  predicate Truthy(v: Value): (t: bool)
    ensures !t <==> v in [Null, Bool(false), Int(0), Float("0.0"), Float("-0.0"), Str([]), Arr([]), Obj([])]
  {
    match v
    case Null => false
    case Bool(b) => b
    case Int(n) => n != 0
    case Float(t) => t != "0.0" && t != "-0.0"
    case Str(s) => |s| > 0
    case Arr(xs) => |xs| > 0
    case Obj(fs) => |fs| > 0
  }

  function StrAt(d: WireBlock, key: string): Result<Text, WireError> {
    if key !in d then Err(KeyError)
    else if d[key].Str? then Ok(d[key].s)
    else Err(ValidationError)
  }

  /** `block_from_dict`. */
  function BlockFromWire(d: WireBlock): Result<Block, WireError> {
    var kind := if "type" in d then d["type"] else Null;
    if kind == Str(T("text")) then
      match StrAt(d, "text")
      case Ok(text) => Ok(TextBlock(text))
      case Err(e) => Err(e)
    else if kind == Str(T("tool_use")) then
      match (StrAt(d, "id"), StrAt(d, "name"))
      case (Ok(id), Ok(name)) =>
        if "input" !in d then Err(KeyError)
        else if d["input"].Obj? then Ok(ToolUseBlock(id, name, d["input"]))
        else Err(ValidationError)
      case _ => Err(KeyError)
    else if kind == Str(T("tool_result")) then
      match (StrAt(d, "tool_use_id"), StrAt(d, "content"))
      case (Ok(id), Ok(content)) =>
        Ok(ToolResultBlock(id, content, "is_error" in d && Truthy(d["is_error"])))
      case _ => Err(KeyError)
    else OpaqueFromWire(d)
  }

  /** `OpaqueBlock.model_validate`: a `type` string and anything else beside it. */
  function OpaqueFromWire(d: WireBlock): Result<Block, WireError> {
    match StrAt(d, "type")
    case Ok(kind) => Ok(OpaqueBlock(kind, d - {"type"}))
    case Err(_) => Err(ValidationError)
  }

  /** The provider adapter's own reader, which knows two kinds and not three. */
  function BlockFromProvider(d: WireBlock): Result<Block, WireError> {
    if "type" in d && (d["type"] == Str(T("text")) || d["type"] == Str(T("tool_use")))
    then BlockFromWire(d)
    else OpaqueFromWire(d)
  }

  /** What the block classes guarantee of every instance. */
  predicate WellFormed(b: Block) {
    && (b.ToolUseBlock? ==> b.input.Obj?)
    && (b.OpaqueBlock? ==> "type" !in b.extra)
  }

  predicate Interpreted(kind: Text) {
    kind == T("text") || kind == T("tool_use") || kind == T("tool_result")
  }

  /** The blocks the column stores without loss. */
  predicate Stable(b: Block) {
    && WellFormed(b)
    && (b.OpaqueBlock? ==> !Interpreted(b.kind) && forall k | k in b.extra :: b.extra[k] != Null)
  }

  lemma KeysDiffer()
    ensures "type" != "text" && "type" != "id" && "type" != "name" && "type" != "input"
    ensures "id" != "name" && "id" != "input" && "name" != "input"
    ensures "type" != "tool_use_id" && "type" != "content" && "type" != "is_error"
    ensures "tool_use_id" != "content" && "tool_use_id" != "is_error" && "content" != "is_error"
  {
    assert "type"[1] != "text"[1] && "type"[0] != "name"[0];
  }

  lemma KindsDiffer()
    ensures T("text") != T("tool_use") && T("text") != T("tool_result") && T("tool_use") != T("tool_result")
  {
    assert |T("text")| == 4 && |T("tool_use")| == 8 && |T("tool_result")| == 11;
  }

  /** The stored forms of the interpreted blocks, as the provider spells them, and what an absent flag means. */
  lemma ReadsPayloads(id: Text, name: Text, text: Text, input: seq<Field>, flag: Value)
    ensures BlockFromWire(map["type" := Str(T("text")), "text" := Str(text)]) == Ok(TextBlock(text))
    ensures var use := map["type" := Str(T("tool_use")), "id" := Str(id), "name" := Str(name), "input" := Obj(input)];
            BlockFromWire(use) == Ok(ToolUseBlock(id, name, Obj(input)))
    ensures var result := map["type" := Str(T("tool_result")), "tool_use_id" := Str(id), "content" := Str(text)];
            && BlockFromWire(result) == Ok(ToolResultBlock(id, text, false))
            && BlockFromWire(result["is_error" := flag]) == Ok(ToolResultBlock(id, text, Truthy(flag)))
  {
    KeysDiffer();
    KindsDiffer();
  }

  /** A block survives the column unchanged exactly when it is stable. */
  lemma BlockRoundTrip(b: Block)
    requires WellFormed(b)
    ensures BlockFromWire(BlockToWire(b)) == Ok(b) <==> Stable(b)
  {
    KeysDiffer();
    KindsDiffer();
    var d := BlockToWire(b);
    if b.OpaqueBlock? {
      assert d["type"] == Str(b.kind);
      assert d - {"type"} == NullFree(b.extra);
      if forall k | k in b.extra :: b.extra[k] != Null {
        assert NullFree(b.extra) == b.extra;
      } else {
        var k :| k in b.extra && b.extra[k] == Null;
        assert k !in NullFree(b.extra);
      }
    }
  }

  /**
   * What the provider adapter reads from a null-free payload is stable, save for the one
   * kind that it and `block_from_dict` read differently.
   */
  lemma ProviderBlocksAreStable(d: WireBlock)
    requires BlockFromProvider(d).Ok? && NullFree(d) == d
    ensures Stable(BlockFromProvider(d).value) <==> d["type"] != Str(T("tool_result"))
    ensures BlockFromWire(d) == BlockFromProvider(d) <==> d["type"] != Str(T("tool_result"))
  {
    KindsDiffer();
    assert forall k | k in d :: k in NullFree(d) ==> d[k] != Null;
  }

  // --- Storing a conversation --------------------------------------------------------

  function BlocksToWire(bs: seq<Block>): (ds: seq<WireBlock>)
    ensures |ds| == |bs|
  {
    seq(|bs|, i requires 0 <= i < |bs| => BlockToWire(bs[i]))
  }

  function BlocksFromWire(ds: seq<WireBlock>): Result<seq<Block>, WireError> {
    if |ds| == 0 then Ok([])
    else
      match (BlockFromWire(ds[0]), BlocksFromWire(ds[1..]))
      case (Ok(b), Ok(bs)) => Ok([b] + bs)
      case _ => Err(ValidationError)
  }

  function ToWire(m: Message): WireMessage {
    WireMessage(m.role, BlocksToWire(m.content))
  }

  function FromWire(w: WireMessage): Result<Message, WireError> {
    match BlocksFromWire(w.content)
    case Ok(bs) => Ok(Message(w.role, bs))
    case Err(e) => Err(e)
  }

  function AllToWire(ms: seq<Message>): (ws: seq<WireMessage>)
    ensures |ws| == |ms|
  {
    seq(|ms|, i requires 0 <= i < |ms| => ToWire(ms[i]))
  }

  function AllFromWire(ws: seq<WireMessage>): Result<seq<Message>, WireError> {
    if |ws| == 0 then Ok([])
    else
      match (FromWire(ws[0]), AllFromWire(ws[1..]))
      case (Ok(m), Ok(ms)) => Ok([m] + ms)
      case _ => Err(ValidationError)
  }

  predicate StableMessage(m: Message) { forall b | b in m.content :: Stable(b) }

  predicate StableAll(ms: seq<Message>) { forall m | m in ms :: StableMessage(m) }

  lemma {:induction false} BlocksRoundTrip(bs: seq<Block>)
    requires forall b | b in bs :: Stable(b)
    ensures BlocksFromWire(BlocksToWire(bs)) == Ok(bs)
  {
    if |bs| > 0 {
      assert bs[0] in bs;
      BlockRoundTrip(bs[0]);
      BlocksRoundTrip(bs[1..]);
      assert BlocksToWire(bs)[1..] == BlocksToWire(bs[1..]);
      assert bs == [bs[0]] + bs[1..];
    }
  }

  lemma MessageRoundTrip(m: Message)
    requires StableMessage(m)
    ensures FromWire(ToWire(m)) == Ok(m)
  {
    BlocksRoundTrip(m.content);
  }

  lemma AllFromWireCons(w: WireMessage, ws: seq<WireMessage>)
    requires FromWire(w).Ok? && AllFromWire(ws).Ok?
    ensures AllFromWire([w] + ws) == Ok([FromWire(w).value] + AllFromWire(ws).value)
  {
    assert ([w] + ws)[1..] == ws;
  }

  /** A conversation of stable blocks replays from the store byte for byte. */
  lemma {:induction false} ConversationRoundTrip(ms: seq<Message>)
    requires StableAll(ms)
    ensures AllFromWire(AllToWire(ms)) == Ok(ms)
  {
    if |ms| > 0 {
      assert StableMessage(ms[0]);
      MessageRoundTrip(ms[0]);
      ConversationRoundTrip(ms[1..]);
      assert AllToWire(ms) == [ToWire(ms[0])] + AllToWire(ms[1..]);
      AllFromWireCons(ToWire(ms[0]), AllToWire(ms[1..]));
      assert ms == [ms[0]] + ms[1..];
    }
  }

  /** Reading goes message by message: it fails exactly if some message cannot be read. */
  lemma {:induction false} AllFromWireAppend(ws: seq<WireMessage>, vs: seq<WireMessage>)
    ensures AllFromWire(ws + vs).Ok? <==> AllFromWire(ws).Ok? && AllFromWire(vs).Ok?
    ensures AllFromWire(ws + vs).Ok? ==> AllFromWire(ws + vs).value == AllFromWire(ws).value + AllFromWire(vs).value
  {
    if |ws| == 0 {
      assert ws + vs == vs;
    } else {
      AllFromWireAppend(ws[1..], vs);
      assert (ws + vs)[0] == ws[0] && (ws + vs)[1..] == ws[1..] + vs;
    }
  }

  /** A `tool_result` block the adapter read as opaque is stored, and cannot be read back. */
  lemma OpaqueResultIsUnreadable(role: Role)
    ensures var b := OpaqueBlock(T("tool_result"), map[]);
            && BlockFromProvider(BlockToWire(b)) == Ok(b)
            && AllFromWire(AllToWire([Message(role, [b])])).Err?
  {
    KindsDiffer();
    KeysDiffer();
    var b := OpaqueBlock(T("tool_result"), map[]);
    var d := BlockToWire(b);
    assert d == map["type" := Str(T("tool_result"))];
    assert d - {"type"} == map[];
    assert BlockFromWire(d).Err?;
    assert BlocksToWire([b])[0] == d;
    assert AllToWire([Message(role, [b])])[0].content == BlocksToWire([b]);
  }

  lemma AllToWireAppend(a: seq<Message>, b: seq<Message>)
    ensures AllToWire(a + b) == AllToWire(a) + AllToWire(b)
  {
  }
}
