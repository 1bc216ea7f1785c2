/**
 * The calculator's integer fragment: an expression is worth its exact value or is refused,
 * and nothing too large to hold is ever computed on the way.
 */
module Calculator {
  import opened Wrappers

  datatype UnaryOp = Plus | Minus

  datatype BinaryOp = Add | Sub | Mul | TrueDiv | FloorDiv | Mod | Pow

  /** `Disallowed` is any node outside the allow-list, whatever is below it. */
  datatype Expr =
    | Literal(n: nat)
    | Disallowed
    | Unary(uop: UnaryOp, operand: Expr)
    | Binary(op: BinaryOp, left: Expr, right: Expr)

  /**
   * A refusal is an answer the model can act on; a crash is an exception the tool did not
   * declare; `Beyond` is wherever floating point begins, of which nothing is said.
   */
  datatype Outcome = Exact(v: int) | Refused | Crashed | Beyond

  const MAX_EXPONENT := 64
  const DOUBLE_BITS: nat := 1024
  const HALF_ULP_BITS: nat := 970

  function Power(b: int, k: nat): int { if k == 0 then 1 else b * Power(b, k - 1) }

  function Abs(x: int): nat { if x < 0 then -x else x }

  /** The least magnitude that rounds past the largest double. */
  function Limit(): int { Power(2, DOUBLE_BITS) - Power(2, HALF_ULP_BITS) }

  // --- Python's operators ------------------------------------------------------------

  /** Division here rounds so that the remainder is not negative; Python's rounds down. */
  function PyFloorDiv(a: int, b: int): int
    requires b != 0
  {
    if b > 0 || a % b == 0 then a / b else a / b - 1
  }

  function PyMod(a: int, b: int): int
    requires b != 0
  {
    if b > 0 || a % b == 0 then a % b else a % b + b
  }

  // --- _evaluate ---------------------------------------------------------------------

  function Applied(op: BinaryOp, a: int, b: int): Option<int> {
    match op
    case Add => Some(a + b)
    case Sub => Some(a - b)
    case Mul => Some(a * b)
    case FloorDiv => if b == 0 then None else Some(PyFloorDiv(a, b))
    case Mod => if b == 0 then None else Some(PyMod(a, b))
    case Pow => if b < 0 then None else Some(Power(a, b))
    case TrueDiv => None
  }

  /** Do integer operands take this operator out of the integers? */
  predicate Leaves(op: BinaryOp, a: int, b: int) {
    (op.TrueDiv? && b != 0) || (op.Pow? && b < 0 && a != 0)
  }

  function Evaluate(e: Expr): Outcome {
    match e
    case Literal(n) => Exact(n)
    case Disallowed => Refused
    case Unary(op, operand) =>
      (match Evaluate(operand)
       case Exact(v) => if Abs(v) < Limit() then Exact(if op.Minus? then -v else v) else Crashed
       case other => other)
    case Binary(op, left, right) =>
      var l := Evaluate(left);
      if l.Refused? || l.Crashed? then l
      else
        var r := Evaluate(right);
        if r.Refused? || r.Crashed? then r
        else if op.Pow? && r.Exact? && Abs(r.v) > MAX_EXPONENT then Refused
        else if l.Beyond? || r.Beyond? || Leaves(op, l.v, r.v) then Beyond
        else
          match Applied(op, l.v, r.v)
          case Some(v) => if Abs(v) < Limit() then Exact(v) else Refused
          case None => Refused
  }

  // --- What an expression means ------------------------------------------------------

  function Floor(a: int, b: int): int
    requires b != 0
  {
    (a as real / b as real).Floor
  }

  /** What an operator means over all the integers: floors are floors of the real quotient. */
  function MeaningOf(op: BinaryOp, a: int, b: int): Option<int> {
    match op
    case Add => Some(a + b)
    case Sub => Some(a - b)
    case Mul => Some(a * b)
    case FloorDiv => if b == 0 then None else Some(Floor(a, b))
    case Mod => if b == 0 then None else Some(a - b * Floor(a, b))
    case Pow => if b < 0 then None else Some(Power(a, b))
    case TrueDiv => None
  }

  function Meaning(e: Expr): Option<int> {
    match e
    case Literal(n) => Some(n)
    case Disallowed => None
    case Unary(op, operand) =>
      (match Meaning(operand)
       case Some(v) => Some(if op.Minus? then -v else v)
       case None => None)
    case Binary(op, left, right) =>
      if Meaning(left).None? || Meaning(right).None? then None
      else MeaningOf(op, Meaning(left).value, Meaning(right).value)
  }

  /** Every operator's result is small enough for a double, and every exponent for the cap. */
  predicate Fits(e: Expr) {
    match e
    case Unary(_, operand) => Fits(operand) && Small(e)
    case Binary(op, left, right) =>
      Fits(left) && Fits(right) && Small(e)
      && (op.Pow? && Meaning(right).Some? ==> Meaning(right).value <= 64)
    case _ => true
  }

  predicate Small(e: Expr) { Meaning(e).Some? ==> -Limit() < Meaning(e).value < Limit() }

  lemma DivModFloors(a: int, b: int)
    requires b != 0
    ensures PyFloorDiv(a, b) == Floor(a, b) && PyMod(a, b) == a - b * Floor(a, b)
  {
    var q, r := PyFloorDiv(a, b), PyMod(a, b);
    assert a == q * b + r && (if b > 0 then 0 <= r < b else b < r <= 0) by { Remainder(a, b); }
    FloorIs(a, b, q, r);
  }

  /** The remainder has the divisor's sign. */
  lemma Remainder(a: int, b: int)
    requires b != 0
    ensures a == PyFloorDiv(a, b) * b + PyMod(a, b)
    ensures if b > 0 then 0 <= PyMod(a, b) < b else b < PyMod(a, b) <= 0
  {
    assert a == a / b * b + a % b;
    assert (a / b - 1) * b == a / b * b - b;
  }

  lemma FloorIs(a: int, b: int, q: int, r: int)
    requires b != 0 && a == q * b + r && (if b > 0 then 0 <= r < b else b < r <= 0)
    ensures Floor(a, b) == q
  {
    var x, y := a as real / b as real, r as real / b as real;
    assert x == q as real + y by {
      assert a as real == q as real * b as real + r as real;
      assert x * b as real == a as real && y * b as real == r as real;
      assert (x - q as real - y) * b as real == 0.0;
    }
    assert 0.0 <= y < 1.0;
  }

  lemma AppliedMeans(op: BinaryOp, a: int, b: int)
    ensures Applied(op, a, b) == MeaningOf(op, a, b)
    ensures Leaves(op, a, b) ==> MeaningOf(op, a, b).None?
  {
    if b != 0 { DivModFloors(a, b); }
  }

  /**
   * An accepted expression is worth exactly its meaning, and it is accepted just when it has
   * one, every operator's result fits and so does every exponent.
   */
  lemma {:induction false} AcceptedIffExact(e: Expr, v: int)
    ensures Evaluate(e) == Exact(v) <==> Meaning(e) == Some(v) && Fits(e)
  {
    match e
    case Unary(_, operand) => AcceptedAgrees(operand);
    case Binary(op, left, right) =>
      AcceptedAgrees(left);
      AcceptedAgrees(right);
      if Evaluate(left).Exact? && Evaluate(right).Exact? {
        AppliedMeans(op, Evaluate(left).v, Evaluate(right).v);
      }
    case _ =>
  }

  lemma AcceptedAgrees(e: Expr)
    ensures Evaluate(e).Exact? <==> Meaning(e).Some? && Fits(e)
    ensures Evaluate(e).Exact? ==> Meaning(e) == Some(Evaluate(e).v)
    decreases e
  {
    if Evaluate(e).Exact? { AcceptedIffExact(e, Evaluate(e).v); }
    if Meaning(e).Some? { AcceptedIffExact(e, Meaning(e).value); }
  }

  // --- Crashes -----------------------------------------------------------------------

  /** What the length of the input guarantees. */
  predicate LiteralsFit(e: Expr) {
    match e
    case Literal(n) => n < Limit()
    case Disallowed => true
    case Unary(_, operand) => LiteralsFit(operand)
    case Binary(_, left, right) => LiteralsFit(left) && LiteralsFit(right)
  }

  lemma {:induction false} AcceptedValuesFit(e: Expr)
    requires LiteralsFit(e)
    ensures Evaluate(e).Exact? ==> Abs(Evaluate(e).v) < Limit()
    ensures !Evaluate(e).Crashed?
  {
    match e
    case Unary(_, operand) => AcceptedValuesFit(operand);
    case Binary(_, left, right) =>
      AcceptedValuesFit(left);
      AcceptedValuesFit(right);
    case _ =>
  }

  // --- How large a number is ever computed -------------------------------------------

  function Larger(x: nat, y: nat): nat { if x < y then y else x }

  /** The largest magnitude computed in evaluating an expression, refused results included. */
  function Peak(e: Expr): nat {
    match e
    case Literal(n) => n
    case Disallowed => 0
    case Unary(_, operand) => Peak(operand)
    case Binary(op, left, right) =>
      var l := Evaluate(left);
      if l.Refused? || l.Crashed? then Peak(left)
      else
        var below, r := Larger(Peak(left), Peak(right)), Evaluate(right);
        if !l.Exact? || !r.Exact? || (op.Pow? && Abs(r.v) > MAX_EXPONENT) || Applied(op, l.v, r.v).None? then below
        else Larger(below, Abs(Applied(op, l.v, r.v).value))
  }

  lemma {:induction false} PowerGrows(m: nat, n: nat)
    requires m <= n
    ensures 1 <= Power(2, m) <= Power(2, n)
    decreases n
  {
    if m < n { PowerGrows(m, n - 1); }
    else if n > 0 { PowerGrows(n - 1, n - 1); }
  }

  /** A power is the base, as often as the exponent says, multiplied. */
  lemma {:induction false} PowerAdds(b: int, m: nat, n: nat)
    ensures Power(b, 0) == 1 && Power(b, 1) == b
    ensures Power(b, m + n) == Power(b, m) * Power(b, n)
  {
    assert Power(b, 1) == b * Power(b, 0);
    if m > 0 {
      PowerAdds(b, m - 1, n);
      assert b * (Power(b, m - 1) * Power(b, n)) == b * Power(b, m - 1) * Power(b, n);
    }
  }

  /** The limit is the middle between the largest double, 53 bits of ones, and the power of two above it. */
  lemma LimitIsDouble()
    ensures Limit() == 0x3F_FFFF_FFFF_FFFF * Power(2, 970)
    ensures 2 * Limit() == 0x1F_FFFF_FFFF_FFFF * Power(2, 971) + Power(2, 1024)
  {
    PowerAdds(2, 54, 970);
    PowerAdds(2, 27, 27);
    PowerAdds(2, 13, 14);
    PowerAdds(2, 6, 7);
    PowerAdds(2, 7, 7);
    PowerAdds(2, 53, 971);
    assert Power(2, 971) == 2 * Power(2, 970) && Power(2, 54) == 2 * Power(2, 53);
  }

  lemma ProductBelow(a: int, b: int, x: nat, y: nat)
    requires Abs(a) < x && Abs(b) < y
    ensures Abs(a * b) < x * y
  {
    assert Abs(a * b) == Abs(a) * Abs(b);
    assert Abs(a) * Abs(b) <= Abs(a) * y && Abs(a) * y < x * y;
  }

  lemma {:induction false} PowerBelow(a: int, k: nat, n: nat)
    requires Abs(a) < Power(2, n) && k >= 1
    ensures Abs(Power(a, k)) < Power(2, n * k)
  {
    if k == 1 {
      assert Power(a, 1) == a * Power(a, 0) == a && n * 1 == n;
    } else {
      PowerBelow(a, k - 1, n);
      PowerGrows(0, n * (k - 1));
      ProductBelow(a, Power(a, k - 1), Power(2, n), Power(2, n * (k - 1)));
      PowerAdds(2, n, n * (k - 1));
      assert n + n * (k - 1) == n * k;
    }
  }

  lemma Scales(x: nat, y: nat)
    requires y >= 1
    ensures x <= x * y
  {
  }

  lemma QuotientSmall(a: int, b: int, q: int, r: int)
    requires b != 0 && a == q * b + r && (if b > 0 then 0 <= r < b else b < r <= 0)
    ensures Abs(q) <= Abs(a)
  {
    var x, y := if q >= 0 then q else -(q + 1), Abs(b);
    Scales(x, y);
    assert (q + 1) * b == q * b + b;
    assert x * y == if (q >= 0) == (b > 0) then (if q >= 0 then q * b else (q + 1) * b)
                    else if q >= 0 then -(q * b) else -((q + 1) * b);
  }

  lemma DivisionBelow(a: int, b: int)
    requires b != 0
    ensures Abs(PyFloorDiv(a, b)) <= Abs(a) && Abs(PyMod(a, b)) < Abs(b)
  {
    Remainder(a, b);
    QuotientSmall(a, b, PyFloorDiv(a, b), PyMod(a, b));
  }

  lemma Ordered(n: nat, b: nat, m: nat)
    requires b <= m
    ensures n * b <= n * m
  {
    assert n * (m - b) == n * m - n * b;
  }

  lemma PowerWithin(a: int, b: nat, n: nat, m: nat)
    requires Abs(a) < Power(2, n) && n >= 1 && 1 <= m && b <= m
    ensures Abs(Power(a, b)) < Power(2, n * m)
  {
    Ordered(n, 1, m);
    PowerGrows(1, n * m);
    if b >= 1 {
      PowerBelow(a, b, n);
      Ordered(n, b, m);
      PowerGrows(n * b, n * m);
    }
  }

  /** Sums, quotients and remainders at most double. */
  lemma AtMostDouble(op: BinaryOp, a: int, b: int, x: nat)
    requires Abs(a) < x && Abs(b) < x && !op.Mul? && !op.Pow?
    ensures Applied(op, a, b).Some? ==> Abs(Applied(op, a, b).value) < 2 * x
  {
    if (op.FloorDiv? || op.Mod?) && b != 0 { DivisionBelow(a, b); }
  }

  lemma MulWithin(a: int, b: int, n: nat, m: nat)
    requires Abs(a) < Power(2, n) && Abs(b) < Power(2, n) && m >= 2
    ensures Abs(a * b) < Power(2, n * m)
  {
    ProductBelow(a, b, Power(2, n), Power(2, n));
    PowerAdds(2, n, n);
    assert n * (m - 2) == n * m - n * 2;
    PowerGrows(n + n, n * m);
  }

  /** One operator on operands of `n` bits yields at most `n * m`, if exponents stop at `m`. */
  lemma AppliedBelow(op: BinaryOp, a: int, b: int, n: nat, m: nat)
    requires Abs(a) < Power(2, n) && Abs(b) < Power(2, n) && n >= 1 && m >= 2
    requires op.Pow? ==> b <= m
    ensures Applied(op, a, b).Some? ==> Abs(Applied(op, a, b).value) < Power(2, n * m)
  {
    match op
    case Mul => MulWithin(a, b, n, m);
    case Pow => if b >= 0 { PowerWithin(a, b, n, m); }
    case _ =>
      AtMostDouble(op, a, b, Power(2, n));
      DoubleWithin(n, m);
  }

  lemma DoubleWithin(n: nat, m: nat)
    requires n >= 1 && m >= 2
    ensures 2 * Power(2, n) <= Power(2, n * m)
  {
    assert n * (m - 2) == n * m - n * 2;
    PowerGrows(n + 1, n * m);
  }

  /** With literals below the limit, nothing above 2 ** 65536 is ever computed. */
  lemma {:induction false} PeakIsBounded(e: Expr)
    requires LiteralsFit(e)
    ensures Peak(e) < Power(2, DOUBLE_BITS * MAX_EXPONENT)
  {
    PowerGrows(DOUBLE_BITS, DOUBLE_BITS * MAX_EXPONENT);
    PowerGrows(0, HALF_ULP_BITS);
    match e
    case Unary(_, operand) => PeakIsBounded(operand);
    case Binary(op, left, right) =>
      PeakIsBounded(left);
      PeakIsBounded(right);
      AcceptedValuesFit(left);
      AcceptedValuesFit(right);
      var l, r := Evaluate(left), Evaluate(right);
      if l.Exact? && r.Exact? && (op.Pow? ==> r.v <= MAX_EXPONENT) {
        AppliedBelow(op, l.v, r.v, DOUBLE_BITS, MAX_EXPONENT);
      }
    case _ =>
  }

  /** The bound on literals matters: a sign before one too large is an undeclared exception. */
  lemma OversizeLiteralCrashes(n: nat)
    ensures Evaluate(Unary(Minus, Literal(n))).Crashed? <==> n >= Limit()
    ensures Evaluate(Binary(Sub, Literal(0), Literal(n))) == (if n >= Limit() then Refused else Exact(0 - n))
  {
  }
}
