/** Exponential backoff with full jitter; the random draw is an argument. */
module Retry {
  datatype BackoffPolicy = BackoffPolicy(baseSeconds: real, maxSeconds: real) {
    predicate Valid() { 0.0 <= baseSeconds && 0.0 <= maxSeconds }

    /** The window a draw is spread over: doubled per attempt, capped. */
    function Ceiling(attempt: nat): (window: real)
      requires Valid() && attempt >= 2
      ensures 0.0 <= window <= maxSeconds
    {
      var grown := Product(baseSeconds, Doubled(attempt - 2));
      if maxSeconds <= grown then maxSeconds else grown
    }

    /** Seconds to wait before `attempt`; attempt 2 is the first retry. */
    function DelayFor(attempt: nat, random: real): (delay: real)
      requires Valid() && 0.0 <= random < 1.0
      ensures 0.0 <= delay <= maxSeconds
    {
      if attempt <= 1 then 0.0 else Scaled(Ceiling(attempt), random)
    }
  }

  /** The first retry waits within the base; each window is twice the last, up to the cap. */
  lemma WindowDoubles(p: BackoffPolicy, attempt: nat)
    requires p.Valid() && attempt >= 2
    ensures p.Ceiling(2) == if p.maxSeconds <= p.baseSeconds then p.maxSeconds else p.baseSeconds
    ensures p.Ceiling(attempt + 1) ==
              if p.maxSeconds <= 2.0 * p.Ceiling(attempt) then p.maxSeconds else 2.0 * p.Ceiling(attempt)
  {
    var d := Doubled(attempt - 2);
    assert p.baseSeconds * (2.0 * d) == 2.0 * (p.baseSeconds * d);
  }

  /** Full jitter: the draw is spread evenly over the whole window, and the first try waits for nothing. */
  lemma DelaysFillTheWindow(p: BackoffPolicy, attempt: nat, delay: real)
    requires p.Valid()
    ensures attempt <= 1 || p.Ceiling(attempt) == 0.0 ==> p.DelayFor(attempt, 0.5) == 0.0
    ensures attempt >= 2 && 0.0 <= delay < p.Ceiling(attempt) ==>
              0.0 <= delay / p.Ceiling(attempt) < 1.0
              && p.DelayFor(attempt, delay / p.Ceiling(attempt)) == delay
  {
    if attempt >= 2 && 0.0 <= delay < p.Ceiling(attempt) {
      var c := p.Ceiling(attempt);
      assert (delay / c) * c == delay;
      Below(delay, c);
    }
  }

  lemma Below(x: real, c: real)
    requires 0.0 <= x < c
    ensures 0.0 <= x / c < 1.0
  {
    var q := x / c;
    assert q * c == x;
    assert (1.0 - q) * c == c - x;
  }

  function Doubled(n: nat): (r: real)
    ensures r >= 1.0
  {
    if n == 0 then 1.0 else 2.0 * Doubled(n - 1)
  }

  function Product(x: real, y: real): (p: real)
    requires x >= 0.0 && y >= 0.0
    ensures p >= 0.0
  {
    x * y
  }

  function Scaled(x: real, r: real): (p: real)
    requires 0.0 <= x && 0.0 <= r < 1.0
    ensures 0.0 <= p <= x
  {
    assert Product(x, 1.0 - r) == x - x * r && Product(x, r) == x * r;
    x * r
  }
}
