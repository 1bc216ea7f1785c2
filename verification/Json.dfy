/**
 * JSON values as Python holds them, and the text `json.dumps` prints for them with
 * `sort_keys=True`, `separators=(",", ":")` and `ensure_ascii=True`.
 *
 * An object is a sequence of fields because a Python dict remembers insertion order; a
 * string is a sequence of code points because a Python string may hold a lone surrogate.
 */
module Json {
  type CodePoint = n: int | 0 <= n < 0x110000
  type Text = seq<CodePoint>

  datatype Field = Field(key: Text, value: Value)

  datatype Value =
    | Null
    | Bool(b: bool)
    | Int(n: int)
    | Float(repr: string)
    | Str(s: Text)
    | Arr(items: seq<Value>)
    | Obj(fields: seq<Field>)

  /** A literal as a Python string. */
  function T(s: string): (t: Text)
    ensures |t| == |s|
  {
    seq(|s|, i requires 0 <= i < |s| => s[i] as int)
  }

  // --- What a parsed JSON document can hold ------------------------------------------

  predicate High(c: int) { 0xD800 <= c < 0xDC00 }

  predicate Low(c: int) { 0xDC00 <= c < 0xE000 }

  /** A parser joins a surrogate pair into one code point, so a parsed string holds none. */
  predicate Joined(s: Text) {
    forall i :: 0 <= i < |s| - 1 ==> !(High(s[i]) && Low(s[i + 1]))
  }

  predicate Digit(c: char) { '0' <= c <= '9' }

  predicate NumberChar(c: char) {
    || Digit(c) || c == '+' || c == '-' || c == '.' || c == 'e'
    || c == 'I' || c == 'N' || c == 'a' || c == 'f' || c == 'i' || c == 'n' || c == 't' || c == 'y'
  }

  /** What `float.__repr__` prints, `NaN` and `Infinity` included: never an integer literal. */
  predicate FloatText(t: string) {
    && |t| > 0
    && (Digit(t[0]) || t[0] == '-' || t[0] == 'N' || t[0] == 'I')
    && (forall i :: 0 <= i < |t| ==> NumberChar(t[i]))
    && exists i :: 0 <= i < |t| && !Digit(t[i]) && t[i] != '-'
  }

  predicate DistinctKeys(fs: seq<Field>) {
    forall i, j :: 0 <= i < j < |fs| ==> fs[i].key != fs[j].key
  }

  predicate Valid(v: Value) {
    match v
    case Float(t) => FloatText(t)
    case Str(s) => Joined(s)
    case Arr(xs) => forall x | x in xs :: Valid(x)
    case Obj(fs) => DistinctKeys(fs) && forall f | f in fs :: Joined(f.key) && Valid(f.value)
    case _ => true
  }

  /** Dictionary lookup: where `key` is, or -1. */
  function Find(fs: seq<Field>, key: Text): (i: int)
    ensures -1 <= i < |fs|
    ensures i >= 0 ==> fs[i].key == key
    ensures i < 0 ==> forall f | f in fs :: f.key != key
  {
    if |fs| == 0 then -1
    else if fs[0].key == key then 0
    else var i := Find(fs[1..], key); if i < 0 then -1 else i + 1
  }

  /** Structural equality up to key order. It is finer than Python's `==`: 1, 1.0 and True differ. */
  predicate Same(a: Value, b: Value)
    decreases a
  {
    match (a, b)
    case (Arr(xs), Arr(ys)) =>
      |xs| == |ys| && forall i :: 0 <= i < |xs| ==> Same(xs[i], ys[i])
    case (Obj(fs), Obj(gs)) =>
      && (forall i :: 0 <= i < |fs| ==>
            var j := Find(gs, fs[i].key);
            j >= 0 && Same(fs[i].value, gs[j].value))
      && (forall j :: 0 <= j < |gs| ==> Find(fs, gs[j].key) >= 0)
    case _ => a == b
  }

  // --- sort_keys=True ----------------------------------------------------------------

  /** Python's `<=` on strings: lexicographic by code point. */
  predicate TextLe(a: Text, b: Text) {
    |a| == 0 || (|b| > 0 && (a[0] < b[0] || (a[0] == b[0] && TextLe(a[1..], b[1..]))))
  }

  function Insert(f: Field, fs: seq<Field>): seq<Field> {
    if |fs| == 0 || TextLe(f.key, fs[0].key) then [f] + fs
    else [fs[0]] + Insert(f, fs[1..])
  }

  function SortFields(fs: seq<Field>): seq<Field> {
    if |fs| == 0 then [] else Insert(fs[0], SortFields(fs[1..]))
  }

  /** The value with every object's keys sorted, at every depth. */
  function SortKeys(v: Value): Value {
    match v
    case Arr(xs) => Arr(seq(|xs|, i requires 0 <= i < |xs| => SortKeys(xs[i])))
    case Obj(fs) =>
      Obj(SortFields(seq(|fs|, i requires 0 <= i < |fs| => Field(fs[i].key, SortKeys(fs[i].value)))))
    case _ => v
  }

  // --- ensure_ascii=True -------------------------------------------------------------

  /** The UTF-16 code units of a string; a lone surrogate is its own unit. */
  function Utf16(s: Text): seq<int> {
    if |s| == 0 then [] else UnitsOf(s[0]) + Utf16(s[1..])
  }

  function UnitsOf(c: CodePoint): seq<int> {
    if c < 0x10000 then [c] else [0xD800 + (c - 0x10000) / 0x400, 0xDC00 + (c - 0x10000) % 0x400]
  }

  function HexDigit(n: int): char
    requires 0 <= n < 16
  {
    "0123456789abcdef"[n]
  }

  function Hex4(n: int): string
    requires 0 <= n < 0x10000
  {
    [HexDigit(n / 0x1000), HexDigit(n / 0x100 % 16), HexDigit(n / 16 % 16), HexDigit(n % 16)]
  }

  /** One code unit as `py_encode_basestring_ascii` writes it. */
  function EscapeUnit(u: int): string
    requires 0 <= u < 0x10000
  {
    if u == 0x22 then "\\\""
    else if u == 0x5C then "\\\\"
    else if u == 0x0A then "\\n"
    else if u == 0x0D then "\\r"
    else if u == 0x09 then "\\t"
    else if u == 0x0C then "\\f"
    else if u == 0x08 then "\\b"
    else if 0x20 <= u <= 0x7E then [u as char]
    else "\\u" + Hex4(u)
  }

  predicate Units(us: seq<int>) { forall i :: 0 <= i < |us| ==> 0 <= us[i] < 0x10000 }

  function EscapeUnits(us: seq<int>): string
    requires Units(us)
  {
    if |us| == 0 then "" else EscapeUnit(us[0]) + EscapeUnits(us[1..])
  }

  lemma Utf16Units(s: Text)
    ensures Units(Utf16(s))
  {
  }

  function Quote(s: Text): string {
    Utf16Units(s);
    "\"" + EscapeUnits(Utf16(s)) + "\""
  }

  // --- The printer -------------------------------------------------------------------

  function Decimal(n: nat): string {
    if n < 10 then [('0' as int + n) as char] else Decimal(n / 10) + [('0' as int + n % 10) as char]
  }

  function IntText(n: int): string {
    if n < 0 then "-" + Decimal(-n) else Decimal(n)
  }

  function Print(v: Value): string
    decreases v, 1
  {
    match v
    case Null => "null"
    case Bool(b) => if b then "true" else "false"
    case Int(n) => IntText(n)
    case Float(t) => t
    case Str(s) => Quote(s)
    case Arr(xs) => "[" + PrintItems(xs, "") + "]"
    case Obj(fs) => "{" + PrintFields(fs, "") + "}"
  }

  /** The items, the first one behind `sep` and the others behind a comma. */
  function PrintItems(xs: seq<Value>, sep: string): string
    decreases xs, 0
  {
    if |xs| == 0 then "" else sep + Print(xs[0]) + PrintItems(xs[1..], ",")
  }

  function PrintFields(fs: seq<Field>, sep: string): string
    decreases fs, 0
  {
    if |fs| == 0 then ""
    else sep + Quote(fs[0].key) + ":" + Print(fs[0].value) + PrintFields(fs[1..], ",")
  }

  /** `json.dumps(v, sort_keys=True, separators=(",", ":"), ensure_ascii=True)`. */
  function Dumps(v: Value): string {
    Print(SortKeys(v))
  }
}
