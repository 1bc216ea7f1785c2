/**
 * Canonical text against Python's `==`.
 *
 * `==` compares numbers by worth, so that 1, 1.0 and True are equal, and no NaN equals
 * anything; the text keeps the three apart, and prints every NaN alike. Beyond that the two
 * agree, and this module says exactly where.
 */
module PythonEquality {
  import opened Json
  import opened InvocationKey

  /** What a number is worth, as `==` sees it. */
  datatype Worth = Number(x: real) | Infinite(positive: bool) | NotANumber

  /** The texts `float.__repr__` prints, and what each is worth. */
  datatype Floats = Floats(printed: string -> bool, worth: string -> Worth) {

    /** Two texts of one worth are one text; but there are two zeros. */
    ghost predicate Exact() {
      forall s, t :: printed(s) && printed(t) && worth(s) == worth(t) ==> s == t || Zeros(s, t)
    }
  }

  predicate Zeros(s: string, t: string) { (s == "0.0" && t == "-0.0") || (s == "-0.0" && t == "0.0") }

  predicate Numeric(v: Value) { v.Bool? || v.Int? || v.Float? }

  function WorthOf(floats: Floats, v: Value): Worth
    requires Numeric(v)
  {
    match v
    case Bool(b) => Number(if b then 1.0 else 0.0)
    case Int(n) => Number(n as real)
    case Float(t) => floats.worth(t)
  }

  /** Python's `a == b`. */
  predicate PyEq(floats: Floats, a: Value, b: Value)
    decreases a
  {
    if Numeric(a) && Numeric(b) then
      WorthOf(floats, a) == WorthOf(floats, b) && !WorthOf(floats, a).NotANumber?
    else
      match (a, b)
      case (Arr(xs), Arr(ys)) =>
        |xs| == |ys| && forall i :: 0 <= i < |xs| ==> PyEq(floats, xs[i], ys[i])
      case (Obj(fs), Obj(gs)) =>
        && |fs| == |gs|
        && forall i :: 0 <= i < |fs| ==>
             var j := Find(gs, fs[i].key);
             j >= 0 && PyEq(floats, fs[i].value, gs[j].value)
      case _ => a == b
  }

  /** The value's floats are texts `repr` prints. */
  predicate Printed(floats: Floats, v: Value) {
    match v
    case Float(t) => floats.printed(t)
    case Arr(xs) => forall x | x in xs :: Printed(floats, x)
    case Obj(fs) => forall f | f in fs :: Printed(floats, f.value)
    case _ => true
  }

  predicate HoldsNaN(floats: Floats, v: Value) {
    match v
    case Float(t) => floats.worth(t).NotANumber?
    case Arr(xs) => exists x | x in xs :: HoldsNaN(floats, x)
    case Obj(fs) => exists f | f in fs :: HoldsNaN(floats, f.value)
    case _ => false
  }

  /** Somewhere, at the same place in both, numbers of different kinds meet, or the two zeros. */
  predicate Clash(a: Value, b: Value)
    decreases a
  {
    match (a, b)
    case (Float(s), Float(t)) => Zeros(s, t)
    case (Arr(xs), Arr(ys)) => exists i :: 0 <= i < |xs| && i < |ys| && Clash(xs[i], ys[i])
    case (Obj(fs), Obj(gs)) =>
      exists i :: 0 <= i < |fs| && var j := Find(gs, fs[i].key); j >= 0 && Clash(fs[i].value, gs[j].value)
    case _ => Numeric(a) && Numeric(b) && (a.Bool? != b.Bool? || a.Int? != b.Int?)
  }

  // --- Equal lengths, distinct keys --------------------------------------------------

  function Keys(fs: seq<Field>): set<Text> { set f | f in fs :: f.key }

  lemma {:induction false} KeyEach(fs: seq<Field>)
    requires DistinctKeys(fs)
    ensures |Keys(fs)| == |fs|
  {
    if |fs| > 0 {
      assert fs == [fs[0]] + fs[1..];
      KeyEach(fs[1..]);
      assert Keys(fs) == {fs[0].key} + Keys(fs[1..]);
    }
  }

  lemma SubsetOfEqualSize<X>(a: set<X>, b: set<X>)
    requires a <= b && |a| == |b|
    ensures a == b
  {
    assert b == a + (b - a);
  }

  lemma Found(fs: seq<Field>, key: Text)
    ensures Find(fs, key) >= 0 <==> key in Keys(fs)
  {
    if Find(fs, key) >= 0 { assert fs[Find(fs, key)] in fs; }
  }

  lemma FoundAll(fs: seq<Field>, gs: seq<Field>)
    ensures (forall i :: 0 <= i < |fs| ==> Find(gs, fs[i].key) >= 0) <==> Keys(fs) <= Keys(gs)
  {
    forall i | 0 <= i < |fs| ensures Find(gs, fs[i].key) >= 0 <==> fs[i].key in Keys(gs) {
      Found(gs, fs[i].key);
    }
    forall i | 0 <= i < |fs| ensures fs[i].key in Keys(fs) {
      assert fs[i] in fs;
    }
  }

  /** As many keys on both sides, and all of one side's on the other: the same keys. */
  lemma KeysMatch(fs: seq<Field>, gs: seq<Field>)
    requires DistinctKeys(fs) && DistinctKeys(gs)
    requires forall i :: 0 <= i < |fs| ==> Find(gs, fs[i].key) >= 0
    ensures |fs| == |gs| <==> forall j :: 0 <= j < |gs| ==> Find(fs, gs[j].key) >= 0
  {
    KeyEach(fs);
    KeyEach(gs);
    FoundAll(fs, gs);
    FoundAll(gs, fs);
    if |fs| == |gs| { SubsetOfEqualSize(Keys(fs), Keys(gs)); }
    if Keys(gs) <= Keys(fs) { assert Keys(gs) == Keys(fs); }
  }

  // --- Structurally equal ------------------------------------------------------------

  lemma {:induction false} SameEquals(floats: Floats, a: Value, b: Value)
    requires Valid(a) && Valid(b) && Same(a, b)
    ensures PyEq(floats, a, b) <==> !HoldsNaN(floats, a)
    decreases a, 1
  {
    match (a, b)
    case (Arr(xs), Arr(ys)) =>
      forall i | 0 <= i < |xs| ensures PyEq(floats, xs[i], ys[i]) <==> !HoldsNaN(floats, xs[i]) {
        assert xs[i] in xs && ys[i] in ys && Same(xs[i], ys[i]);
        SameEquals(floats, xs[i], ys[i]);
      }
    case (Obj(fs), Obj(gs)) => SameObjectsEqual(floats, fs, gs);
    case _ =>
  }

  lemma {:induction false} SameObjectsEqual(floats: Floats, fs: seq<Field>, gs: seq<Field>)
    requires Valid(Obj(fs)) && Valid(Obj(gs)) && Same(Obj(fs), Obj(gs))
    ensures PyEq(floats, Obj(fs), Obj(gs)) <==> !HoldsNaN(floats, Obj(fs))
    decreases fs, 0
  {
    KeysMatch(fs, gs);
    forall i | 0 <= i < |fs|
      ensures PyEq(floats, fs[i].value, gs[Find(gs, fs[i].key)].value) <==> !HoldsNaN(floats, fs[i].value)
    {
      var j := Find(gs, fs[i].key);
      assert fs[i] in fs && gs[j] in gs;
      SameEquals(floats, fs[i].value, gs[j].value);
    }
  }

  // --- Equal in Python ---------------------------------------------------------------

  lemma {:induction false} EqualsSame(floats: Floats, a: Value, b: Value)
    requires Valid(a) && Valid(b) && Printed(floats, a) && Printed(floats, b)
    requires floats.Exact() && PyEq(floats, a, b)
    ensures Same(a, b) <==> !Clash(a, b)
    decreases a, 1
  {
    match (a, b)
    case (Arr(xs), Arr(ys)) =>
      forall i | 0 <= i < |xs| ensures Same(xs[i], ys[i]) <==> !Clash(xs[i], ys[i]) {
        assert xs[i] in xs && ys[i] in ys;
        EqualsSame(floats, xs[i], ys[i]);
      }
    case (Obj(fs), Obj(gs)) => EqualObjectsSame(floats, fs, gs);
    case _ =>
  }

  lemma {:induction false} EqualObjectsSame(floats: Floats, fs: seq<Field>, gs: seq<Field>)
    requires Valid(Obj(fs)) && Valid(Obj(gs)) && Printed(floats, Obj(fs)) && Printed(floats, Obj(gs))
    requires floats.Exact() && PyEq(floats, Obj(fs), Obj(gs))
    ensures Same(Obj(fs), Obj(gs)) <==> !Clash(Obj(fs), Obj(gs))
    decreases fs, 0
  {
    KeysMatch(fs, gs);
    forall i | 0 <= i < |fs|
      ensures var j := Find(gs, fs[i].key); Same(fs[i].value, gs[j].value) <==> !Clash(fs[i].value, gs[j].value)
    {
      var j := Find(gs, fs[i].key);
      assert fs[i] in fs && gs[j] in gs;
      EqualsSame(floats, fs[i].value, gs[j].value);
    }
  }

  // --- The text and `==` -------------------------------------------------------------

  /** Values of one text are equal exactly if they hold no NaN. */
  lemma EqualTextsAreEqual(floats: Floats, a: Value, b: Value)
    requires Valid(a) && Valid(b) && Dumps(a) == Dumps(b)
    ensures PyEq(floats, a, b) <==> !HoldsNaN(floats, a)
  {
    CanonicalTextIsExact(a, b);
    SameEquals(floats, a, b);
  }

  /** Equal values have one text exactly if no numbers of different kinds, nor the two zeros, meet in them. */
  lemma EqualsHaveOneText(floats: Floats, a: Value, b: Value)
    requires Valid(a) && Valid(b) && Printed(floats, a) && Printed(floats, b)
    requires floats.Exact() && PyEq(floats, a, b)
    ensures Dumps(a) == Dumps(b) <==> !Clash(a, b)
  {
    CanonicalTextIsExact(a, b);
    EqualsSame(floats, a, b);
  }

  /** `{"n": 1}` and `{"n": 1.0}` are equal, and have two texts and two keys. */
  lemma IntegralFloat(floats: Floats, name: Text, n: int, text: string)
    requires FloatText(text) && Joined(name) && floats.worth(text) == Number(n as real)
    ensures var a, b := Obj([Field(name, Int(n))]), Obj([Field(name, Float(text))]);
            && Valid(a) && Valid(b) && PyEq(floats, a, b) && Clash(a, b) && Dumps(a) != Dumps(b)
  {
    var a, b := Obj([Field(name, Int(n))]), Obj([Field(name, Float(text))]);
    assert Find(b.fields, name) == 0;
    assert !Same(a, b) by { assert !Same(a.fields[0].value, b.fields[0].value); }
    CanonicalTextIsExact(a, b);
  }
}
