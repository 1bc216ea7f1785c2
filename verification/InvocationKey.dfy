/**
 * The idempotency key of a tool call, before hashing.
 *
 * The text is equal for two calls exactly when run, step, tool and arguments agree, the
 * arguments up to object key order at every depth.
 */
module InvocationKey {
  import opened Json
  import opened CanonicalJson

  // --- Sorting by key ----------------------------------------------------------------

  lemma TextLeTotal(a: Text, b: Text)
    ensures TextLe(a, b) || TextLe(b, a)
  {
  }

  lemma {:induction false} TextLeAntisymmetric(a: Text, b: Text)
    requires TextLe(a, b) && TextLe(b, a)
    ensures a == b
  {
    if |a| > 0 {
      TextLeAntisymmetric(a[1..], b[1..]);
      assert a == [a[0]] + a[1..] && b == [b[0]] + b[1..];
    }
  }

  lemma {:induction false} TextLeTransitive(a: Text, b: Text, c: Text)
    requires TextLe(a, b) && TextLe(b, c)
    ensures TextLe(a, c)
  {
    if |a| > 0 && a[0] == b[0] == c[0] {
      TextLeTransitive(a[1..], b[1..], c[1..]);
    }
  }

  predicate DifferFirst(a: Text, b: Text, i: nat) {
    i < |a| && i < |b| && a[i] != b[i] && forall j: nat :: j < i ==> a[j] == b[j]
  }

  /** By code point, at the first place where they differ; a beginning comes before what it begins. */
  lemma {:induction false} TextLeIsByCodePoint(a: Text, b: Text)
    ensures TextLe(a, b) <==> a <= b || exists i: nat :: DifferFirst(a, b, i) && a[i] < b[i]
  {
    if |a| > 0 && |b| > 0 {
      var c, d := a[1..], b[1..];
      TextLeIsByCodePoint(c, d);
      assert a[0] == b[0] && c <= d ==> a <= b;
      if i: nat :| DifferFirst(c, d, i) && c[i] < d[i] && a[0] == b[0] {
        assert DifferFirst(a, b, i + 1) && a[i + 1] < b[i + 1] by {
          assert forall j: nat :: 0 < j < i + 1 ==> a[j] == c[j - 1] && b[j] == d[j - 1];
        }
      }
      if i: nat :| DifferFirst(a, b, i) && a[i] < b[i] && i > 0 {
        assert DifferFirst(c, d, i - 1) && c[i - 1] < d[i - 1];
      }
      assert a[0] < b[0] ==> DifferFirst(a, b, 0);
    }
  }

  predicate Sorted(fs: seq<Field>) {
    forall i, j :: 0 <= i < j < |fs| ==> TextLe(fs[i].key, fs[j].key)
  }

  lemma {:induction false} InsertKeeps(f: Field, fs: seq<Field>)
    ensures multiset(Insert(f, fs)) == multiset(fs) + multiset{f}
  {
    if |fs| > 0 && !TextLe(f.key, fs[0].key) {
      InsertKeeps(f, fs[1..]);
      assert fs == [fs[0]] + fs[1..];
    }
  }

  lemma {:induction false} InsertSorts(f: Field, fs: seq<Field>)
    requires Sorted(fs)
    ensures Sorted(Insert(f, fs))
  {
    if |fs| == 0 {
    } else if TextLe(f.key, fs[0].key) {
      forall j | 0 <= j < |fs| ensures TextLe(f.key, fs[j].key) {
        if j > 0 { TextLeTransitive(f.key, fs[0].key, fs[j].key); }
      }
    } else {
      var rest := Insert(f, fs[1..]);
      InsertSorts(f, fs[1..]);
      InsertKeeps(f, fs[1..]);
      TextLeTotal(f.key, fs[0].key);
      forall i | 0 <= i < |rest| ensures TextLe(fs[0].key, rest[i].key) {
        assert rest[i] in multiset(rest);
        assert rest[i] == f || rest[i] in fs[1..];
      }
    }
  }

  lemma {:induction false} SortFieldsSorts(fs: seq<Field>)
    ensures Sorted(SortFields(fs)) && multiset(SortFields(fs)) == multiset(fs)
  {
    if |fs| > 0 {
      SortFieldsSorts(fs[1..]);
      InsertSorts(fs[0], SortFields(fs[1..]));
      InsertKeeps(fs[0], SortFields(fs[1..]));
      assert fs == [fs[0]] + fs[1..];
    }
  }

  /** One field of each key: the multiset form of `DistinctKeys`. */
  predicate OneEach(fs: multiset<Field>) {
    forall f, g | f in fs && g in fs && f.key == g.key :: f == g && fs[f] == 1
  }

  lemma {:induction false} DistinctIsOneEach(fs: seq<Field>)
    requires DistinctKeys(fs)
    ensures OneEach(multiset(fs))
  {
    if |fs| > 0 {
      assert fs == [fs[0]] + fs[1..];
      assert DistinctKeys(fs[1..]);
      DistinctIsOneEach(fs[1..]);
      assert forall f :: f in fs[1..] ==> f.key != fs[0].key;
      assert multiset(fs) == multiset{fs[0]} + multiset(fs[1..]);
    }
  }

  lemma {:induction false} OneEachIsDistinct(fs: seq<Field>)
    requires OneEach(multiset(fs))
    ensures DistinctKeys(fs)
  {
    forall i, j | 0 <= i < j < |fs| ensures fs[i].key != fs[j].key {
      assert fs == fs[..j] + [fs[j]] + fs[j + 1..] && fs[i] in fs[..j];
      assert fs[i] == fs[j] ==> multiset(fs)[fs[j]] >= 2;
    }
  }

  lemma TailOf(fs: seq<Field>)
    requires |fs| > 0
    ensures fs == [fs[0]] + fs[1..] && multiset(fs[1..]) == multiset(fs) - multiset{fs[0]}
  {
    assert fs == [fs[0]] + fs[1..];
  }

  /** Sorting forgets everything but the fields themselves. */
  lemma {:induction false} SortedUnique(fs: seq<Field>, gs: seq<Field>)
    requires Sorted(fs) && Sorted(gs) && DistinctKeys(fs)
    requires multiset(fs) == multiset(gs)
    ensures fs == gs
  {
    assert |fs| == |multiset(fs)| == |multiset(gs)| == |gs|;
    if |fs| > 0 {
      HeadsAgree(fs, gs);
      TailOf(fs);
      TailOf(gs);
      SortedUnique(fs[1..], gs[1..]);
    }
  }

  lemma HeadsAgree(fs: seq<Field>, gs: seq<Field>)
    requires Sorted(fs) && Sorted(gs) && DistinctKeys(fs)
    requires multiset(fs) == multiset(gs) && |fs| > 0 && |gs| > 0
    ensures fs[0] == gs[0]
  {
    assert fs[0] in multiset(gs) && gs[0] in multiset(fs);
    var i :| 0 <= i < |gs| && gs[i] == fs[0];
    var j :| 0 <= j < |fs| && fs[j] == gs[0];
    if i > 0 && j > 0 { TextLeAntisymmetric(fs[0].key, gs[0].key); }
  }

  // --- Equal canonical forms ---------------------------------------------------------

  /** The fields of an object with their values already sorted, in the original order. */
  function Inner(fs: seq<Field>): seq<Field> {
    seq(|fs|, i requires 0 <= i < |fs| => Field(fs[i].key, SortKeys(fs[i].value)))
  }

  lemma InnerDistinct(fs: seq<Field>)
    requires DistinctKeys(fs)
    ensures DistinctKeys(Inner(fs)) && OneEach(multiset(Inner(fs)))
    ensures DistinctKeys(SortFields(Inner(fs)))
    ensures Sorted(SortFields(Inner(fs))) && multiset(SortFields(Inner(fs))) == multiset(Inner(fs))
  {
    DistinctIsOneEach(Inner(fs));
    SortFieldsSorts(Inner(fs));
    OneEachIsDistinct(SortFields(Inner(fs)));
  }

  lemma {:induction false} SortKeysValid(v: Value)
    requires Valid(v)
    ensures Valid(SortKeys(v))
    decreases v
  {
    match v
    case Arr(xs) =>
      forall i | 0 <= i < |xs| ensures Valid(SortKeys(xs[i])) {
        SortKeysValid(xs[i]);
      }
    case Obj(fs) =>
      InnerDistinct(fs);
      assert SortKeys(v) == Obj(SortFields(Inner(fs)));
      forall f | f in SortFields(Inner(fs)) ensures Joined(f.key) && Valid(f.value) {
        assert f in multiset(Inner(fs));
        var i :| 0 <= i < |fs| && Inner(fs)[i] == f;
        assert fs[i] in fs;
        SortKeysValid(fs[i].value);
      }
    case _ =>
  }

  /** One field each and the same fields: equal multisets. */
  lemma SameFieldsSameMultiset(fs: seq<Field>, gs: seq<Field>)
    requires DistinctKeys(fs) && DistinctKeys(gs)
    requires forall f :: f in fs <==> f in gs
    ensures multiset(fs) == multiset(gs)
  {
    DistinctIsOneEach(fs);
    DistinctIsOneEach(gs);
    forall f: Field ensures multiset(fs)[f] == multiset(gs)[f] {
      if f in fs {
        assert f in multiset(fs) && f in multiset(gs);
      } else {
        assert f !in multiset(fs) && f !in multiset(gs);
      }
    }
  }

  lemma {:induction false} SameSortsAlike(a: Value, b: Value)
    requires Valid(a) && Valid(b) && Same(a, b)
    ensures SortKeys(a) == SortKeys(b)
    decreases a, 1
  {
    match (a, b)
    case (Arr(xs), Arr(ys)) => ArraysSortAlike(xs, ys);
    case (Obj(fs), Obj(gs)) => ObjectsSortAlike(fs, gs);
    case _ =>
  }

  lemma {:induction false} ArraysSortAlike(xs: seq<Value>, ys: seq<Value>)
    requires Valid(Arr(xs)) && Valid(Arr(ys)) && Same(Arr(xs), Arr(ys))
    ensures SortKeys(Arr(xs)) == SortKeys(Arr(ys))
    decreases xs, 0
  {
    forall i | 0 <= i < |xs| ensures SortKeys(xs[i]) == SortKeys(ys[i]) {
      assert Same(xs[i], ys[i]);
      SameSortsAlike(xs[i], ys[i]);
    }
  }

  lemma {:induction false} ObjectsSortAlike(fs: seq<Field>, gs: seq<Field>)
    requires Valid(Obj(fs)) && Valid(Obj(gs)) && Same(Obj(fs), Obj(gs))
    ensures SortKeys(Obj(fs)) == SortKeys(Obj(gs))
    decreases fs, 0
  {
    forall i | 0 <= i < |fs|
      ensures var j := Find(gs, fs[i].key); j >= 0 && Inner(fs)[i] == Inner(gs)[j]
    {
      var j := Find(gs, fs[i].key);
      assert j >= 0 && Same(fs[i].value, gs[j].value);
      assert fs[i] in fs && gs[j] in gs;
      SameSortsAlike(fs[i].value, gs[j].value);
    }
    forall j | 0 <= j < |gs| ensures Inner(fs)[Find(fs, gs[j].key)].key == Inner(gs)[j].key {
    }
    FieldsCovered(Inner(fs), Inner(gs));
    InnerSortsAlike(fs, gs);
  }

  lemma FieldsCovered(fs: seq<Field>, gs: seq<Field>)
    requires DistinctKeys(gs)
    requires forall f | f in fs :: f in gs
    requires forall j :: 0 <= j < |gs| ==> exists i :: 0 <= i < |fs| && fs[i].key == gs[j].key
    ensures forall f :: f in fs <==> f in gs
  {
    forall j | 0 <= j < |gs| ensures gs[j] in fs {
      var i :| 0 <= i < |fs| && fs[i].key == gs[j].key;
      assert fs[i] in gs;
    }
  }

  lemma InnerSortsAlike(fs: seq<Field>, gs: seq<Field>)
    requires DistinctKeys(fs) && DistinctKeys(gs)
    requires forall f :: f in Inner(fs) <==> f in Inner(gs)
    ensures SortKeys(Obj(fs)) == SortKeys(Obj(gs))
  {
    InnerDistinct(fs);
    InnerDistinct(gs);
    SameFieldsSameMultiset(Inner(fs), Inner(gs));
    SortedUnique(SortFields(Inner(fs)), SortFields(Inner(gs)));
  }

  lemma {:induction false} SortedAlikeSame(a: Value, b: Value)
    requires Valid(a) && Valid(b) && SortKeys(a) == SortKeys(b)
    ensures Same(a, b)
    decreases a, 1
  {
    match (a, b)
    case (Arr(xs), Arr(ys)) => SortedArraysSame(xs, ys);
    case (Obj(fs), Obj(gs)) => SortedObjectsSame(fs, gs);
    case _ =>
  }

  lemma {:induction false} SortedArraysSame(xs: seq<Value>, ys: seq<Value>)
    requires Valid(Arr(xs)) && Valid(Arr(ys)) && SortKeys(Arr(xs)) == SortKeys(Arr(ys))
    ensures Same(Arr(xs), Arr(ys))
    decreases xs, 0
  {
    var sx, sy := SortKeys(Arr(xs)).items, SortKeys(Arr(ys)).items;
    assert |xs| == |sx| == |sy| == |ys|;
    forall i | 0 <= i < |xs| ensures Same(xs[i], ys[i]) {
      assert sx[i] == sy[i] && xs[i] in xs && ys[i] in ys;
      SortedAlikeSame(xs[i], ys[i]);
    }
  }

  lemma {:induction false} SortedObjectsSame(fs: seq<Field>, gs: seq<Field>)
    requires Valid(Obj(fs)) && Valid(Obj(gs)) && SortKeys(Obj(fs)) == SortKeys(Obj(gs))
    ensures Same(Obj(fs), Obj(gs))
    decreases fs, 0
  {
    SortedAlikeMatch(fs, gs);
    forall i | 0 <= i < |fs|
      ensures var j := Find(gs, fs[i].key); j >= 0 && Same(fs[i].value, gs[j].value)
    {
      FoundAlike(fs, i, gs);
      var j := Find(gs, fs[i].key);
      assert fs[i] in fs && gs[j] in gs;
      SortedAlikeSame(fs[i].value, gs[j].value);
    }
    forall j | 0 <= j < |gs| ensures Find(fs, gs[j].key) >= 0 {
      FoundAlike(gs, j, fs);
    }
  }

  lemma FoundAlike(fs: seq<Field>, i: nat, gs: seq<Field>)
    requires i < |fs| && DistinctKeys(gs) && Inner(fs)[i] in Inner(gs)
    ensures var j := Find(gs, fs[i].key);
            j >= 0 && SortKeys(fs[i].value) == SortKeys(gs[j].value)
  {
    var k :| 0 <= k < |gs| && Inner(gs)[k] == Inner(fs)[i];
    assert gs[k] in gs && gs[k].key == fs[i].key;
    assert Find(gs, fs[i].key) == k;
  }

  lemma SortedAlikeMatch(fs: seq<Field>, gs: seq<Field>)
    requires DistinctKeys(fs) && DistinctKeys(gs) && SortKeys(Obj(fs)) == SortKeys(Obj(gs))
    ensures forall f :: f in Inner(fs) <==> f in Inner(gs)
  {
    InnerDistinct(fs);
    InnerDistinct(gs);
    assert SortKeys(Obj(fs)) == Obj(SortFields(Inner(fs))) && SortKeys(Obj(gs)) == Obj(SortFields(Inner(gs)));
    forall f ensures f in Inner(fs) <==> f in Inner(gs) {
      assert f in Inner(fs) <==> f in multiset(Inner(fs));
      assert f in Inner(gs) <==> f in multiset(Inner(gs));
    }
  }

  /** Canonical text agrees exactly when the values agree up to key order. */
  lemma CanonicalTextIsExact(a: Value, b: Value)
    requires Valid(a) && Valid(b)
    ensures Dumps(a) == Dumps(b) <==> Same(a, b)
  {
    if Dumps(a) == Dumps(b) {
      SortKeysValid(a);
      SortKeysValid(b);
      PrintUnique(SortKeys(a), SortKeys(b), "", "");
      SortedAlikeSame(a, b);
    }
    if Same(a, b) {
      SameSortsAlike(a, b);
    }
  }

  // --- The four fields ---------------------------------------------------------------

  /** The text `invocation_key` hashes: the four components, joined by bars. */
  function Preimage(runId: string, stepIdx: nat, toolName: string, args: Value): string {
    runId + "|" + Decimal(stepIdx) + "|" + toolName + "|" + Dumps(args)
  }

  predicate BarFree(s: string) { '|' !in s }

  /** The first bar ends the first field. */
  lemma FieldUnique(a: string, b: string, r: string, q: string)
    requires BarFree(a) && BarFree(b) && a + ("|" + r) == b + ("|" + q)
    ensures a == b && r == q
  {
    assert forall i :: 0 <= i < |a| ==> (a + ("|" + r))[i] == a[i];
    assert forall i :: 0 <= i < |b| ==> (b + ("|" + q))[i] == b[i];
    assert (a + ("|" + r))[|a|] == '|' && (b + ("|" + q))[|b|] == '|';
    Cut(a, "|" + r, b, "|" + q);
    Cut("|", r, "|", q);
  }

  lemma PreimageSplit(runId: string, stepIdx: nat, toolName: string, args: Value)
    ensures Preimage(runId, stepIdx, toolName, args)
            == runId + ("|" + (Decimal(stepIdx) + ("|" + (toolName + ("|" + Dumps(args))))))
  {
  }

  /** The hashed text recovers all four components; the arguments up to key order. */
  lemma PreimageIsExact(
    run1: string, step1: nat, tool1: string, args1: Value,
    run2: string, step2: nat, tool2: string, args2: Value)
    requires BarFree(run1) && BarFree(run2) && BarFree(tool1) && BarFree(tool2)
    requires Valid(args1) && Valid(args2)
    ensures Preimage(run1, step1, tool1, args1) == Preimage(run2, step2, tool2, args2)
            <==> run1 == run2 && step1 == step2 && tool1 == tool2 && Same(args1, args2)
  {
    CanonicalTextIsExact(args1, args2);
    if Preimage(run1, step1, tool1, args1) == Preimage(run2, step2, tool2, args2) {
      PreimageSplit(run1, step1, tool1, args1);
      PreimageSplit(run2, step2, tool2, args2);
      var t1, t2 := tool1 + ("|" + Dumps(args1)), tool2 + ("|" + Dumps(args2));
      DecimalDigits(step1);
      DecimalDigits(step2);
      FieldUnique(run1, run2, Decimal(step1) + ("|" + t1), Decimal(step2) + ("|" + t2));
      FieldUnique(Decimal(step1), Decimal(step2), t1, t2);
      FieldUnique(tool1, tool2, Dumps(args1), Dumps(args2));
      DecimalInjective(step1, step2);
    }
  }
}
