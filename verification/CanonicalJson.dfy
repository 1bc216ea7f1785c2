/**
 * The canonical text of a JSON value determines the value, up to object key order.
 *
 * Printing is shown injective by unique readability: a printed value followed by anything
 * that cannot continue a number is read back in only one way.
 */
module CanonicalJson {
  import opened Json

  /** Text that cannot extend the number printed before it. */
  predicate Stop(r: string) { |r| == 0 || Delimiter(r[0]) }

  predicate Delimiter(c: char) { c == ',' || c == ']' || c == '}' }

  /** Two equal texts, cut at the same place. */
  lemma Cut(a: string, r: string, b: string, q: string)
    requires a + r == b + q && |a| == |b|
    ensures a == b && r == q
  {
    assert a == (a + r)[..|a|] && r == (a + r)[|a|..];
    assert b == (b + q)[..|b|] && q == (b + q)[|b|..];
  }

  lemma Regroup(a: string, b: string, c: string)
    requires |a| > 0
    ensures a + b + c == a + (b + c) && (a + (b + c))[0] == a[0]
  {
  }

  lemma RegroupItem(sep: string, p: string, rest: string, r: string)
    requires |p| > 0 && (sep == "" || sep == ",")
    ensures sep + p + rest + r == sep + (p + (rest + r))
    ensures (sep + (p + (rest + r)))[0] == if sep == "" then p[0] else ','
  {
  }

  lemma RegroupField(sep: string, k: string, p: string, rest: string, r: string)
    requires |k| > 0 && (sep == "" || sep == ",")
    ensures sep + k + ":" + p + rest + r == sep + (k + (":" + (p + (rest + r))))
    ensures (sep + (k + (":" + (p + (rest + r)))))[0] == if sep == "" then k[0] else ','
  {
    Regroup(k, ":" + p + rest, r);
  }

  // --- Strings -----------------------------------------------------------------------

  lemma HexDigitInjective(a: int, b: int)
    requires 0 <= a < 16 && 0 <= b < 16 && HexDigit(a) == HexDigit(b)
    ensures a == b
  {
    var digits := "0123456789abcdef";
    assert forall i, j :: 0 <= i < j < 16 ==> digits[i] != digits[j];
  }

  lemma Hex4Injective(a: int, b: int)
    requires 0 <= a < 0x10000 && 0 <= b < 0x10000 && Hex4(a) == Hex4(b)
    ensures a == b
  {
    var s, t := Hex4(a), Hex4(b);
    assert s[0] == t[0] && s[1] == t[1] && s[2] == t[2] && s[3] == t[3];
    HexDigitInjective(a / 0x1000, b / 0x1000);
    HexDigitInjective(a / 0x100 % 16, b / 0x100 % 16);
    HexDigitInjective(a / 16 % 16, b / 16 % 16);
    HexDigitInjective(a % 16, b % 16);
    Nibbles(a);
    Nibbles(b);
  }

  lemma Nibbles(a: int)
    requires 0 <= a < 0x10000
    ensures a == a / 0x1000 * 0x1000 + a / 0x100 % 16 * 0x100 + a / 16 % 16 * 16 + a % 16
  {
    assert a / 0x100 == a / 16 / 16 && a / 0x1000 == a / 16 / 16 / 16;
  }

  /** The escape of one code unit is never a proper prefix of another one's. */
  lemma EscapeUnitUnique(u: int, v: int, r: string, q: string)
    requires 0 <= u < 0x10000 && 0 <= v < 0x10000
    requires EscapeUnit(u) + r == EscapeUnit(v) + q
    ensures u == v && r == q
  {
    var e, f := EscapeUnit(u), EscapeUnit(v);
    assert e[0] == (e + r)[0] == (f + q)[0] == f[0];
    if e[0] == '\\' {
      assert e[1] == (e + r)[1] == (f + q)[1] == f[1];
    }
    Cut(e, r, f, q);
    if |e| == 6 {
      assert Hex4(u) == e[2..] == f[2..] == Hex4(v);
      Hex4Injective(u, v);
    }
  }

  lemma EscapeNeverQuotes(u: int)
    requires 0 <= u < 0x10000
    ensures |EscapeUnit(u)| > 0 && EscapeUnit(u)[0] != '\"'
  {
  }

  /** Reads a string up to its closing quote: `x` and `y` are what follows the opening one. */
  lemma {:induction false} EscapeUnitsUnique(us: seq<int>, vs: seq<int>, r: string, q: string)
    requires Units(us) && Units(vs)
    requires EscapeUnits(us) + ("\"" + r) == EscapeUnits(vs) + ("\"" + q)
    ensures us == vs && r == q
  {
    EscapeSplit(us, r);
    EscapeSplit(vs, q);
    if |us| == 0 && |vs| == 0 {
      Cut("\"", r, "\"", q);
    } else if |us| > 0 && |vs| > 0 {
      EscapeUnitUnique(us[0], vs[0], EscapeUnits(us[1..]) + ("\"" + r), EscapeUnits(vs[1..]) + ("\"" + q));
      EscapeUnitsUnique(us[1..], vs[1..], r, q);
    }
  }

  lemma EscapeSplit(us: seq<int>, r: string)
    requires Units(us)
    ensures |us| == 0 ==> EscapeUnits(us) + ("\"" + r) == "\"" + r
    ensures |us| > 0 ==>
              && EscapeUnits(us) + ("\"" + r) == EscapeUnit(us[0]) + (EscapeUnits(us[1..]) + ("\"" + r))
              && (EscapeUnits(us) + ("\"" + r))[0] != '\"'
  {
    if |us| > 0 {
      EscapeNeverQuotes(us[0]);
      Regroup(EscapeUnit(us[0]), EscapeUnits(us[1..]), "\"" + r);
    }
  }

  lemma {:induction false} Utf16Injective(s: Text, t: Text)
    requires Joined(s) && Joined(t) && Utf16(s) == Utf16(t)
    ensures s == t
  {
    if |s| == 0 || |t| == 0 {
    } else {
      var u, v := UnitsOf(s[0]), UnitsOf(t[0]);
      assert u[0] == Utf16(s)[0] == Utf16(t)[0] == v[0];
      PairsAgree(s, t);
      PairsAgree(t, s);
      assert |u| == |v|;
      assert u == Utf16(s)[..|u|] == Utf16(t)[..|v|] == v;
      assert Utf16(s[1..]) == Utf16(s)[|u|..] == Utf16(t)[|v|..] == Utf16(t[1..]);
      Utf16Injective(s[1..], t[1..]);
    }
  }

  /** A supplementary code point is not matched by a lone high surrogate. */
  lemma PairsAgree(s: Text, t: Text)
    requires |s| > 0 && |t| > 0 && Joined(t) && Utf16(s) == Utf16(t)
    ensures |UnitsOf(s[0])| == 2 ==> |UnitsOf(t[0])| == 2
  {
    assert Utf16(t) == UnitsOf(t[0]) + Utf16(t[1..]);
    assert |t| > 1 ==> Utf16(t[1..])[0] == UnitsOf(t[1])[0];
    assert |UnitsOf(s[0])| == 2 ==> High(Utf16(s)[0]) && Low(Utf16(s)[1]);
  }

  lemma QuoteOpens(s: Text, r: string)
    requires Units(Utf16(s))
    ensures Quote(s) + r == "\"" + (EscapeUnits(Utf16(s)) + ("\"" + r))
  {
  }

  /**
   * For any two Python strings, escaped text agrees exactly when the UTF-16 forms do; so it
   * identifies a string only if neither one spells a code point as a surrogate pair.
   */
  lemma QuoteAgreesOnUtf16(s: Text, t: Text)
    ensures Quote(s) == Quote(t) <==> Utf16(s) == Utf16(t)
    ensures Joined(s) && Joined(t) ==> (Quote(s) == Quote(t) <==> s == t)
  {
    Utf16Units(s);
    Utf16Units(t);
    if Quote(s) == Quote(t) {
      QuoteOpens(s, "");
      QuoteOpens(t, "");
      assert Quote(s) + "" == Quote(t) + "";
      Cut("\"", EscapeUnits(Utf16(s)) + ("\"" + ""), "\"", EscapeUnits(Utf16(t)) + ("\"" + ""));
      EscapeUnitsUnique(Utf16(s), Utf16(t), "", "");
    }
    if Joined(s) && Joined(t) && Utf16(s) == Utf16(t) {
      Utf16Injective(s, t);
    }
  }

  /** Why the hypothesis is needed: two different Python strings with one escaped text. */
  lemma SurrogatePairCollides()
    ensures Dumps(Str([0xD83D, 0xDE00])) == Dumps(Str([0x1F600]))
    ensures !Same(Str([0xD83D, 0xDE00]), Str([0x1F600])) && !Valid(Str([0xD83D, 0xDE00]))
  {
    var pair: Text, one: Text := [0xD83D, 0xDE00], [0x1F600];
    assert Utf16(pair[1..]) == [0xDE00] by { assert pair[1..] == [0xDE00]; }
    assert Utf16(pair) == [0xD83D, 0xDE00] == Utf16(one);
    QuoteAgreesOnUtf16(pair, one);
    assert High(pair[0]) && Low(pair[1]);
  }

  lemma QuoteUnique(s: Text, t: Text, r: string, q: string)
    requires Joined(s) && Joined(t) && Quote(s) + r == Quote(t) + q
    ensures s == t && r == q
  {
    Utf16Units(s);
    Utf16Units(t);
    QuoteOpens(s, r);
    QuoteOpens(t, q);
    Cut("\"", EscapeUnits(Utf16(s)) + ("\"" + r), "\"", EscapeUnits(Utf16(t)) + ("\"" + q));
    EscapeUnitsUnique(Utf16(s), Utf16(t), r, q);
    Utf16Injective(s, t);
  }

  // --- Numbers -----------------------------------------------------------------------

  predicate Digits(s: string) { |s| > 0 && forall i :: 0 <= i < |s| ==> Digit(s[i]) }

  lemma DecimalDigits(n: nat)
    ensures Digits(Decimal(n))
  {
  }

  lemma {:induction false} DecimalInjective(m: nat, n: nat)
    requires Decimal(m) == Decimal(n)
    ensures m == n
  {
    var s, t := Decimal(m), Decimal(n);
    DecimalDigits(m);
    DecimalDigits(n);
    if m >= 10 { DecimalDigits(m / 10); }
    if n >= 10 { DecimalDigits(n / 10); }
    assert s[|s| - 1] == t[|t| - 1];
    assert m % 10 == n % 10;
    if m >= 10 && n >= 10 {
      assert Decimal(m / 10) == s[..|s| - 1] == t[..|t| - 1] == Decimal(n / 10);
      DecimalInjective(m / 10, n / 10);
    }
  }

  predicate IntChars(s: string) { |s| > 0 && forall i :: 0 <= i < |s| ==> Digit(s[i]) || s[i] == '-' }

  lemma IntTextChars(n: int)
    ensures IntChars(IntText(n)) && (n < 0 <==> IntText(n)[0] == '-')
  {
    DecimalDigits(if n < 0 then -n else n);
  }

  lemma IntTextInjective(m: int, n: int)
    requires IntText(m) == IntText(n)
    ensures m == n
  {
    IntTextChars(m);
    IntTextChars(n);
    if m < 0 {
      assert IntText(m)[1..] == Decimal(-m) && IntText(n)[1..] == Decimal(-n);
      DecimalInjective(-m, -n);
    } else {
      DecimalInjective(m, n);
    }
  }

  predicate NumberChars(s: string) { forall i :: 0 <= i < |s| ==> NumberChar(s[i]) }

  /** A number ends where the first delimiter stands. */
  lemma NumberUnique(a: string, b: string, r: string, q: string)
    requires NumberChars(a) && NumberChars(b) && Stop(r) && Stop(q) && a + r == b + q
    ensures a == b && r == q
  {
    assert forall i :: 0 <= i < |a| ==> (a + r)[i] == a[i];
    assert forall i :: 0 <= i < |b| ==> (b + q)[i] == b[i];
    assert |r| > 0 ==> (a + r)[|a|] == r[0];
    assert |q| > 0 ==> (b + q)[|b|] == q[0];
    Cut(a, r, b, q);
  }

  // --- Unique readability ------------------------------------------------------------

  datatype Shape = ShapeNull | ShapeTrue | ShapeFalse | ShapeNumber | ShapeStr | ShapeArr | ShapeObj

  function ShapeOf(v: Value): Shape {
    match v
    case Null => ShapeNull
    case Bool(b) => if b then ShapeTrue else ShapeFalse
    case Int(_) => ShapeNumber
    case Float(_) => ShapeNumber
    case Str(_) => ShapeStr
    case Arr(_) => ShapeArr
    case Obj(_) => ShapeObj
  }

  function ShapeFrom(c: char): Shape {
    if c == 'n' then ShapeNull else if c == 't' then ShapeTrue else if c == 'f' then ShapeFalse
    else if c == '\"' then ShapeStr else if c == '[' then ShapeArr else if c == '{' then ShapeObj
    else ShapeNumber
  }

  lemma OpensArr(xs: seq<Value>, r: string)
    ensures Print(Arr(xs)) + r == "[" + (PrintItems(xs, "") + ("]" + r))
  {
  }

  lemma OpensObj(fs: seq<Field>, r: string)
    ensures Print(Obj(fs)) + r == "{" + (PrintFields(fs, "") + ("}" + r))
  {
  }

  lemma FirstChar(v: Value)
    requires v.Float? ==> FloatText(v.repr)
    ensures |Print(v)| > 0 && ShapeFrom(Print(v)[0]) == ShapeOf(v) && !Delimiter(Print(v)[0])
  {
    match v
    case Int(n) => IntTextChars(n);
    case Str(s) => Utf16Units(s); QuoteOpens(s, "");
    case Arr(xs) => OpensArr(xs, "");
    case Obj(fs) => OpensObj(fs, "");
    case _ =>
  }

  lemma NumbersUnique(x: Value, y: Value, r: string, q: string)
    requires Valid(x) && Valid(y) && ShapeOf(x) == ShapeOf(y) == ShapeNumber
    requires Stop(r) && Stop(q) && Print(x) + r == Print(y) + q
    ensures x == y && r == q
  {
    if x.Int? { IntTextChars(x.n); }
    if y.Int? { IntTextChars(y.n); }
    NumberUnique(Print(x), Print(y), r, q);
    if x.Int? && y.Int? {
      IntTextInjective(x.n, y.n);
    }
  }

  lemma {:induction false} PrintUnique(x: Value, y: Value, r: string, q: string)
    requires Valid(x) && Valid(y) && Stop(r) && Stop(q) && Print(x) + r == Print(y) + q
    ensures x == y && r == q
    decreases x, 1
  {
    FirstChar(x);
    FirstChar(y);
    assert Print(x)[0] == (Print(x) + r)[0] == (Print(y) + q)[0] == Print(y)[0];
    assert ShapeOf(x) == ShapeOf(y);
    match x
    case Str(s) => QuoteUnique(s, y.s, r, q);
    case Int(_) => NumbersUnique(x, y, r, q);
    case Float(_) => NumbersUnique(x, y, r, q);
    case Arr(xs) => ArraysUnique(xs, y.items, r, q);
    case Obj(fs) => ObjectsUnique(fs, y.fields, r, q);
    case _ => Cut(Print(x), r, Print(y), q);
  }

  lemma {:induction false} ArraysUnique(xs: seq<Value>, ys: seq<Value>, r: string, q: string)
    requires Valid(Arr(xs)) && Valid(Arr(ys))
    requires Print(Arr(xs)) + r == Print(Arr(ys)) + q
    ensures xs == ys && r == q
    decreases xs, 1
  {
    OpensArr(xs, r);
    OpensArr(ys, q);
    Cut("[", PrintItems(xs, "") + ("]" + r), "[", PrintItems(ys, "") + ("]" + q));
    ItemsUnique(xs, ys, "", "]" + r, "]" + q);
    Cut("]", r, "]", q);
  }

  lemma {:induction false} ObjectsUnique(fs: seq<Field>, gs: seq<Field>, r: string, q: string)
    requires Valid(Obj(fs)) && Valid(Obj(gs))
    requires Print(Obj(fs)) + r == Print(Obj(gs)) + q
    ensures fs == gs && r == q
    decreases fs, 1
  {
    OpensObj(fs, r);
    OpensObj(gs, q);
    Cut("{", PrintFields(fs, "") + ("}" + r), "{", PrintFields(gs, "") + ("}" + q));
    FieldsUnique(fs, gs, "", "}" + r, "}" + q);
    Cut("}", r, "}", q);
  }

  lemma {:induction false} ItemsUnique(xs: seq<Value>, ys: seq<Value>, sep: string, r: string, q: string)
    requires (forall x | x in xs :: Valid(x)) && (forall y | y in ys :: Valid(y))
    requires sep == "" || sep == ","
    requires |r| > 0 && |q| > 0 && r[0] == q[0] == ']'
    requires PrintItems(xs, sep) + r == PrintItems(ys, sep) + q
    ensures xs == ys && r == q
    decreases xs, 0
  {
    ItemsSplit(xs, sep, r);
    ItemsSplit(ys, sep, q);
    if |xs| > 0 && |ys| > 0 {
      var r', q' := PrintItems(xs[1..], ",") + r, PrintItems(ys[1..], ",") + q;
      Cut(sep, Print(xs[0]) + r', sep, Print(ys[0]) + q');
      PrintUnique(xs[0], ys[0], r', q');
      ItemsUnique(xs[1..], ys[1..], ",", r, q);
    }
  }

  lemma ItemsSplit(xs: seq<Value>, sep: string, r: string)
    requires forall x | x in xs :: Valid(x)
    requires sep == "" || sep == ","
    requires |r| > 0 && r[0] == ']'
    ensures |xs| == 0 ==> PrintItems(xs, sep) + r == r
    ensures |xs| > 0 ==>
              && PrintItems(xs, sep) + r == sep + (Print(xs[0]) + (PrintItems(xs[1..], ",") + r))
              && Stop(PrintItems(xs[1..], ",") + r)
              && (PrintItems(xs, sep) + r)[0] != ']'
  {
    if |xs| > 0 {
      assert Valid(xs[0]);
      FirstChar(xs[0]);
      var p, rest := Print(xs[0]), PrintItems(xs[1..], ",");
      RegroupItem(sep, p, rest, r);
    }
  }

  lemma {:induction false} FieldsUnique(fs: seq<Field>, gs: seq<Field>, sep: string, r: string, q: string)
    requires forall f | f in fs :: Joined(f.key) && Valid(f.value)
    requires forall g | g in gs :: Joined(g.key) && Valid(g.value)
    requires sep == "" || sep == ","
    requires |r| > 0 && |q| > 0 && r[0] == q[0] == '}'
    requires PrintFields(fs, sep) + r == PrintFields(gs, sep) + q
    ensures fs == gs && r == q
    decreases fs, 0
  {
    FieldsSplit(fs, sep, r);
    FieldsSplit(gs, sep, q);
    if |fs| > 0 && |gs| > 0 {
      var f, g := fs[0], gs[0];
      var r1, q1 := PrintFields(fs[1..], ",") + r, PrintFields(gs[1..], ",") + q;
      var r2, q2 := ":" + (Print(f.value) + r1), ":" + (Print(g.value) + q1);
      Cut(sep, Quote(f.key) + r2, sep, Quote(g.key) + q2);
      QuoteUnique(f.key, g.key, r2, q2);
      Cut(":", Print(f.value) + r1, ":", Print(g.value) + q1);
      PrintUnique(f.value, g.value, r1, q1);
      FieldsUnique(fs[1..], gs[1..], ",", r, q);
    }
  }

  lemma FieldsSplit(fs: seq<Field>, sep: string, r: string)
    requires sep == "" || sep == ","
    requires |r| > 0 && r[0] == '}'
    ensures |fs| == 0 ==> PrintFields(fs, sep) + r == r
    ensures |fs| > 0 ==>
              && PrintFields(fs, sep) + r
                 == sep + (Quote(fs[0].key) + (":" + (Print(fs[0].value) + (PrintFields(fs[1..], ",") + r))))
              && Stop(PrintFields(fs[1..], ",") + r)
              && (PrintFields(fs, sep) + r)[0] != '}'
  {
    if |fs| > 0 {
      var k, p, rest := Quote(fs[0].key), Print(fs[0].value), PrintFields(fs[1..], ",");
      assert PrintFields(fs, sep) == sep + k + ":" + p + rest;
      RegroupField(sep, k, p, rest, r);
    }
  }

  // --- What is printed ---------------------------------------------------------------

  /** What a row of digits is worth. */
  function Worth(s: string): int {
    if |s| == 0 then 0 else 10 * Worth(s[..|s| - 1]) + (s[|s| - 1] as int - '0' as int)
  }

  /** A number is printed by its digits, the first of them not 0 unless it is the only one. */
  lemma {:induction false} DecimalIsWorth(n: nat)
    ensures Worth(Decimal(n)) == n && |Decimal(n)| > 0 && (n >= 1 ==> Decimal(n)[0] != '0')
  {
    if n < 10 {
      assert Decimal(n)[..0] == "";
    } else {
      DecimalIsWorth(n / 10);
      assert Decimal(n)[..|Decimal(n)| - 1] == Decimal(n / 10);
    }
  }

  /** The cases: no whitespace, and what is not ASCII escaped by code unit in lower-case hexadecimal. */
  lemma PrintsLikePython()
    ensures Print(Arr([Int(-1), Null])) == "[-1,null]"
    ensures Print(Obj([Field([0x61], Int(0)), Field([0x62], Bool(true))])) == "{\"a\":0,\"b\":true}"
    ensures Quote([0xE9]) == "\"\\u00e9\""
  {
    PrintsItems();
    PrintsFields();
    QuotesOne(0xE9);
  }

  lemma PrintsItems()
    ensures Print(Arr([Int(-1), Null])) == "[-1,null]"
  {
    var xs := [Int(-1), Null];
    assert xs[1..] == [Null] && [Null][1..] == [];
    assert PrintItems([Null], ",") == "," + "null" + "";
    assert PrintItems(xs, "") == "" + "-1" + PrintItems(xs[1..], ",");
  }

  lemma PrintsFields()
    ensures Print(Obj([Field([0x61], Int(0)), Field([0x62], Bool(true))])) == "{\"a\":0,\"b\":true}"
  {
    var f := Field([0x62], Bool(true));
    var fs := [Field([0x61], Int(0)), f];
    assert fs[1..] == [f];
    var rest := PrintFields(fs[1..], ",");
    assert rest == ",\"b\":true" by { PrintsField(f, ","); }
    QuotesLetter(0x61);
    assert PrintFields(fs, "") == "" + Quote([0x61]) + ":" + Print(Int(0)) + rest;
    assert Print(Int(0)) == "0";
  }

  lemma PrintsField(f: Field, sep: string)
    ensures PrintFields([f], sep) == sep + Quote(f.key) + ":" + Print(f.value)
    ensures f.key == [0x62] ==> Quote(f.key) == "\"b\""
  {
    assert [f][1..] == [];
    QuotesLetter(0x62);
  }

  lemma QuotesLetter(c: CodePoint)
    requires 0x61 <= c <= 0x7A
    ensures Quote([c]) == ['\"', c as char, '\"']
  {
    QuotesOne(c);
    assert EscapeUnit(c) == [c as char];
  }

  lemma QuotesOne(c: CodePoint)
    requires c < 0x10000
    ensures Quote([c]) == "\"" + EscapeUnit(c) + "\""
  {
    assert [c][1..] == [] && Utf16([c]) == [c];
    Utf16Units([c]);
    assert EscapeUnits([c]) == EscapeUnit(c) + EscapeUnits([]);
  }
}
