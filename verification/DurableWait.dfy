/**
 * How long and how often the loop waits for a durable call: an eager poll that doubles up to
 * a ceiling, and a deadline a little before the step's own. Times are exact here.
 */
module DurableWait {
  const POLL_MIN_SECONDS := 0.1
  const POLL_MAX_SECONDS := 2.0
  const INFLIGHT_RESERVE_FRACTION := 0.05
  const INFLIGHT_RESERVE_FLOOR_SECONDS := 0.1

  function Max(x: real, y: real): real { if x < y then y else x }

  function Min(x: real, y: real): real { if y < x then y else x }

  /** How long one attempt may wait for durable calls: all but a twentieth, and all but a tenth of a second. */
  function WaitBudget(stepTimeout: real): (budget: real)
    ensures stepTimeout >= 2.0 ==> budget == 0.95 * stepTimeout
    ensures 0.1 <= stepTimeout <= 2.0 ==> budget == stepTimeout - 0.1
    ensures stepTimeout <= 0.1 ==> budget == 0.0
  {
    Max(stepTimeout - Max(stepTimeout * INFLIGHT_RESERVE_FRACTION, INFLIGHT_RESERVE_FLOOR_SECONDS), 0.0)
  }

  /** The waiting ends strictly before the step's hard deadline exactly when there is a step. */
  lemma DeadlineBeforeTimeout(stepTimeout: real)
    ensures 0.0 <= WaitBudget(stepTimeout)
    ensures WaitBudget(stepTimeout) < stepTimeout <==> stepTimeout > 0.0
    ensures WaitBudget(stepTimeout) == 0.0 <==> stepTimeout <= INFLIGHT_RESERVE_FLOOR_SECONDS
  {
  }

  /** The sleep asked for, clamped to what is left. */
  function Ask(interval: real, remaining: real): real { Min(interval, remaining) }

  function Backed(interval: real): real { Min(interval * 2.0, POLL_MAX_SECONDS) }

  predicate IsInterval(interval: real) {
    interval == 0.1 || interval == 0.2 || interval == 0.4 || interval == 0.8 || interval == 1.6 || interval == 2.0
  }

  function Ceiling(x: real): int { -((-x).Floor) }

  /** Sleeps at the ceiling that `remaining` seconds leave room for. */
  function AtCeiling(remaining: real): nat {
    if remaining <= 0.0 then 0 else Ceiling(remaining / POLL_MAX_SECONDS)
  }

  /** The most sleeps a wait can still take: the doublings ahead, then one per two seconds. */
  function SleepsLeft(interval: real, remaining: real): nat
    requires IsInterval(interval)
  {
    if remaining <= 0.0 then 0
    else if interval == 0.1 then 5 + AtCeiling(remaining - 3.1)
    else if interval == 0.2 then 4 + AtCeiling(remaining - 3.0)
    else if interval == 0.4 then 3 + AtCeiling(remaining - 2.8)
    else if interval == 0.8 then 2 + AtCeiling(remaining - 2.4)
    else if interval == 1.6 then 1 + AtCeiling(remaining - 1.6)
    else AtCeiling(remaining)
  }

  lemma FewerAtCeiling(x: real, y: real)
    requires y <= x
    ensures AtCeiling(y) <= AtCeiling(x)
    ensures y <= x - POLL_MAX_SECONDS && 0.0 < x ==> AtCeiling(y) < AtCeiling(x)
  {
    if y > 0.0 { assert -(x / 2.0) <= -(y / 2.0); }
  }

  /** A sleep that lasts at least what was asked leaves one fewer to come. */
  lemma SleepsDwindle(interval: real, remaining: real, slept: real)
    requires IsInterval(interval) && remaining > 0.0 && slept >= Ask(interval, remaining)
    ensures IsInterval(Backed(interval))
    ensures SleepsLeft(Backed(interval), remaining - slept) < SleepsLeft(interval, remaining)
    ensures 0.0 < Ask(interval, remaining) <= remaining
  {
    var left := remaining - slept;
    if left > 0.0 {
      assert left <= remaining - interval;
      if interval == 0.1 { FewerAtCeiling(remaining - 3.1, left - 3.0); }
      else if interval == 0.2 { FewerAtCeiling(remaining - 3.0, left - 2.8); }
      else if interval == 0.4 { FewerAtCeiling(remaining - 2.8, left - 2.4); }
      else if interval == 0.8 { FewerAtCeiling(remaining - 2.4, left - 1.6); }
      else if interval == 1.6 { FewerAtCeiling(remaining - 1.6, left); }
      else { FewerAtCeiling(remaining, left); }
    }
  }

  /** A wait, played out: how much longer than asked each sleep lasted. */
  function SleepsTaken(interval: real, remaining: real, late: nat -> real, n: nat): nat
    requires IsInterval(interval) && forall i :: late(i) >= 0.0
    decreases SleepsLeft(interval, remaining)
  {
    if remaining <= 0.0 then 0
    else
      var slept := Ask(interval, remaining) + late(n);
      SleepsDwindle(interval, remaining, slept);
      1 + SleepsTaken(Backed(interval), remaining - slept, late, n + 1)
  }

  lemma {:induction false} NoMoreThanLeft(interval: real, remaining: real, late: nat -> real, n: nat)
    requires IsInterval(interval) && forall i :: late(i) >= 0.0
    ensures SleepsTaken(interval, remaining, late, n) <= SleepsLeft(interval, remaining)
    decreases SleepsLeft(interval, remaining)
  {
    if remaining > 0.0 {
      var slept := Ask(interval, remaining) + late(n);
      SleepsDwindle(interval, remaining, slept);
      NoMoreThanLeft(Backed(interval), remaining - slept, late, n + 1);
    }
  }

  /** A wait of `w` seconds takes at most 5 + ceil(max(0, w - 3.1) / 2) sleeps. */
  lemma WaitIsBounded(w: real, late: nat -> real)
    requires forall i :: late(i) >= 0.0
    ensures SleepsTaken(POLL_MIN_SECONDS, w, late, 0) <= 5 + Ceiling(Max(0.0, w - 3.1) / 2.0)
  {
    NoMoreThanLeft(POLL_MIN_SECONDS, w, late, 0);
    assert Ceiling(0.0) == 0;
  }

  /** The bound is met: punctual sleeps take exactly that many. */
  lemma {:induction false} PunctualSleeps(interval: real, remaining: real, n: nat)
    requires IsInterval(interval) && remaining > if interval == 0.1 then 1.5 else if interval == 0.2 then 1.4 else
               if interval == 0.4 then 1.2 else if interval == 0.8 then 0.8 else 0.0
    ensures SleepsTaken(interval, remaining, _ => 0.0, n) == SleepsLeft(interval, remaining)
    decreases SleepsLeft(interval, remaining)
  {
    var left := remaining - Ask(interval, remaining);
    SleepsDwindle(interval, remaining, Ask(interval, remaining));
    if left > 0.0 { PunctualSleeps(Backed(interval), left, n + 1); }
  }
}
