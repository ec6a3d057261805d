/** The reconnect backoff, over reals: rounding is not the point here. */
module Delay {

  const BACKOFF_MIN := 1.92
  const BACKOFF_MAX := 60.0
  const BACKOFF_FACTOR := 1.618

  /** `current` is BACKOFF_MIN until the first delay after a reset was drawn. */
  datatype Backoff = Backoff(current: real, initial: real)

  /** The random initial delay lies in this interval. */
  predicate Drawn(initial: real) {
    1.0 <= initial <= 5.0
  }

  function Min(a: real, b: real): real {
    if a <= b then a else b
  }

  function Fresh(initial: real): Backoff {
    Backoff(BACKOFF_MIN, initial)
  }

  function Peek(d: Backoff): real {
    if d.current == BACKOFF_MIN then d.initial else d.current
  }

  /** One backoff factor more; the factor is written out to keep the arithmetic linear. */
  function Grow(delay: real): real {
    delay * 1.618
  }

  function Advanced(d: Backoff): Backoff {
    d.(current := Min(Grow(Peek(d)), BACKOFF_MAX))
  }

  function Nth(d: Backoff, k: nat): Backoff {
    if k == 0 then d else Advanced(Nth(d, k - 1))
  }

  /** The k-th delay drawn after a reset, counting from 0. */
  function DelayAt(initial: real, k: nat): real {
    Peek(Nth(Fresh(initial), k))
  }

  function Power(x: real, k: nat): real {
    if k == 0 then 1.0 else Power(x, k - 1) * x
  }

  function Scaled(initial: real, k: nat): real {
    initial * Power(1.618, k)
  }

  /** min(initial * 1.618 ^ k, 60). */
  function ClosedForm(initial: real, k: nat): real {
    Min(Scaled(initial, k), 60.0)
  }

  /** The second delay is not mistaken for the sentinel. */
  predicate Regular(initial: real) {
    initial * 1.618 != 1.92
  }

  /** The uncapped delay, one factor at a time. */
  function Grown(initial: real, k: nat): real {
    if k == 0 then initial else Grow(Grown(initial, k - 1))
  }

  lemma {:induction false} GrownIsPower(initial: real, k: nat)
    ensures Grown(initial, k) == Scaled(initial, k)
  {
    if k > 0 {
      GrownIsPower(initial, k - 1);
      Reassociate(initial, Power(1.618, k - 1), 1.618);
    }
  }

  lemma Reassociate(a: real, b: real, c: real)
    ensures a * b * c == a * (b * c)
  {
  }

  lemma {:induction false} GrownGrows(initial: real, k: nat)
    requires Drawn(initial)
    ensures 1.0 <= Grown(initial, k) <= Grown(initial, k + 1)
    ensures k >= 2 ==> Grown(initial, k) >= 2.6
  {
    if k > 0 {
      GrownGrows(initial, k - 1);
    }
    if k >= 2 {
      GrownGrows(initial, k - 2);
      assert Grown(initial, k) == Grow(Grown(initial, k - 1));
      assert Grown(initial, k - 1) == Grow(Grown(initial, k - 2));
    }
  }

  /** No later delay than the second can equal the sentinel. */
  lemma NeverTheSentinelAgain(initial: real, k: nat)
    requires Drawn(initial) && Regular(initial) && k >= 1
    ensures Min(Grown(initial, k), BACKOFF_MAX) != BACKOFF_MIN
  {
    GrownGrows(initial, k);
    assert k == 1 ==> Grown(initial, k) == Grow(Grown(initial, 0));
  }

  lemma {:induction false} CurrentIsGrown(initial: real, k: nat)
    requires Drawn(initial) && Regular(initial) && k >= 1
    ensures Nth(Fresh(initial), k) == Backoff(Min(Grown(initial, k), BACKOFF_MAX), initial)
  {
    assert Nth(Fresh(initial), k) == Advanced(Nth(Fresh(initial), k - 1));
    assert Grown(initial, k) == Grow(Grown(initial, k - 1));
    if k > 1 {
      CurrentIsGrown(initial, k - 1);
      NeverTheSentinelAgain(initial, k - 1);
      GrownGrows(initial, k - 1);
    }
  }

  lemma RegularDelay(initial: real, k: nat)
    requires Drawn(initial) && Regular(initial)
    ensures DelayAt(initial, k) == Min(Grown(initial, k), BACKOFF_MAX)
  {
    if k > 0 {
      CurrentIsGrown(initial, k);
      NeverTheSentinelAgain(initial, k);
    }
  }

  lemma {:induction false} StuckAtTheSentinel(initial: real, k: nat)
    requires !Regular(initial)
    ensures Nth(Fresh(initial), k) == Fresh(initial)
  {
    if k > 0 {
      StuckAtTheSentinel(initial, k - 1);
    }
  }

  /** Every delay follows the closed form exactly when the second one does not hit the
      sentinel by accident. */
  lemma DelaysAreClosedForm(initial: real)
    requires 1.0 <= initial <= 5.0
    ensures (forall k: nat :: DelayAt(initial, k) == ClosedForm(initial, k)) <==> initial * 1.618 != 1.92
  {
    if Regular(initial) {
      forall k: nat ensures DelayAt(initial, k) == ClosedForm(initial, k) {
        RegularDelay(initial, k);
        GrownIsPower(initial, k);
      }
    } else {
      StuckAtTheSentinel(initial, 1);
      GrownIsPower(initial, 1);
      assert Grown(initial, 1) == Grow(Grown(initial, 0));
      assert DelayAt(initial, 1) != ClosedForm(initial, 1);
    }
  }

  /** Delays never decrease, stuck or not, and stay between one second and the cap. */
  lemma DelaysNeverDecrease(initial: real, k: nat)
    requires 1.0 <= initial <= 5.0
    ensures 1.0 <= DelayAt(initial, k) <= DelayAt(initial, k + 1) <= 60.0
  {
    if Regular(initial) {
      RegularDelay(initial, k);
      RegularDelay(initial, k + 1);
      GrownGrows(initial, k);
    } else {
      StuckAtTheSentinel(initial, k);
      StuckAtTheSentinel(initial, k + 1);
    }
  }

  /** From the tenth delay after a reset on, the cap is reached. */
  lemma {:induction false} CapIsReached(initial: real, k: nat)
    requires 1.0 <= initial <= 5.0 && initial * 1.618 != 1.92 && k >= 9
    ensures Grown(initial, k) >= 60.0 && DelayAt(initial, k) == 60.0
  {
    if k == 9 {
      assert Grown(initial, 3) == Grow(Grown(initial, 2)) && Grown(initial, 2) == Grow(Grown(initial, 1))
        && Grown(initial, 1) == Grow(Grown(initial, 0));
      assert Grown(initial, 6) == Grow(Grown(initial, 5)) && Grown(initial, 5) == Grow(Grown(initial, 4))
        && Grown(initial, 4) == Grow(Grown(initial, 3));
      assert Grown(initial, 9) == Grow(Grown(initial, 8)) && Grown(initial, 8) == Grow(Grown(initial, 7))
        && Grown(initial, 7) == Grow(Grown(initial, 6));
    } else {
      CapIsReached(initial, k - 1);
      assert Grown(initial, k) == Grow(Grown(initial, k - 1));
    }
    RegularDelay(initial, k);
  }

  /** `_Delay`. `drawn` counts the delays drawn since the last reset. */
  class DelayTimer {
    var backoffDelay: real
    var initialDelay: real
    ghost var drawn: nat

    function State(): Backoff
      reads this
    {
      Backoff(backoffDelay, initialDelay)
    }

    ghost predicate Valid()
      reads this
    {
      State() == Nth(Fresh(initialDelay), drawn)
    }

    constructor (random: real)
      ensures Valid() && drawn == 0 && initialDelay == random
    {
      backoffDelay, initialDelay, drawn := BACKOFF_MIN, random, 0;
    }

    method Next() returns (delay: real)
      requires Valid()
      modifies this
      ensures Valid() && initialDelay == old(initialDelay) && drawn == old(drawn) + 1
      ensures delay == DelayAt(initialDelay, old(drawn))
    {
      delay := if backoffDelay == BACKOFF_MIN then initialDelay else backoffDelay;
      var grown := delay * BACKOFF_FACTOR;
      backoffDelay := if grown <= BACKOFF_MAX then grown else BACKOFF_MAX;
      drawn := drawn + 1;
    }

    method Reset()
      requires Valid()
      modifies this
      ensures Valid() && initialDelay == old(initialDelay) && drawn == 0
    {
      backoffDelay, drawn := BACKOFF_MIN, 0;
    }
  }
}
