/** Exponential backoff on Go's int64 durations (nanoseconds), shared by the
    pulse daemon supervisor, the recorder loop, pairing, the Soloist supervisor
    and the event listener. */
module Backoff {
  const TWO_63: int := 0x8000_0000_0000_0000
  const TWO_64: int := 0x1_0000_0000_0000_0000

  /** A Go time.Duration. */
  type Duration = d: int | -0x8000_0000_0000_0000 <= d < 0x8000_0000_0000_0000

  const SECOND: Duration := 1_000_000_000

  /** The value an int64 register holds after doubling or adding gave x. */
  function Wrap64(x: int): (r: Duration)
    requires -TWO_64 <= x < TWO_64
  {
    if x >= TWO_63 then x - TWO_64 else if x < -TWO_63 then x + TWO_64 else x
  }

  /** It is the int64 congruent to x, and the only one. */
  lemma Wrap64IsCongruent(x: int, r: Duration)
    requires -TWO_64 <= x < TWO_64
    ensures r == Wrap64(x) <==> (r - x) % TWO_64 == 0
  {
    if (r - x) % TWO_64 == 0 {
      var q := (r - x) / TWO_64;
      assert r == x + q * TWO_64 && -2 <= q <= 2;
    }
  }

  function NextBackoff(current: Duration, max: Duration): Duration {
    if current >= max then
      max
    else
      var next := Wrap64(current * 2);
      if next <= 0 || next > max then max else next
  }

  /** The delay after k failures in a row. */
  function Delay(k: nat, initial: Duration, max: Duration): Duration {
    if k == 0 then initial else NextBackoff(Delay(k - 1, initial, max), max)
  }

  lemma DelayStep(k: nat, initial: Duration, max: Duration)
    ensures Delay(k + 1, initial, max) == NextBackoff(Delay(k, initial, max), max)
  {}

  function Pow2(k: nat): (r: nat)
    ensures r >= 1
  {
    if k == 0 then 1 else 2 * Pow2(k - 1)
  }

  function Min(a: int, b: int): int {
    if a <= b then a else b
  }

  /** Doubling a positive duration leaves int64 exactly when the register turns
      non-positive, so the `next <= 0` test misses no overflow and reports no
      false one. */
  lemma OverflowIsCaught(current: Duration)
    requires 0 < current
    ensures Wrap64(current * 2) <= 0 <==> current * 2 >= TWO_63
    ensures Wrap64(current * 2) > 0 ==> Wrap64(current * 2) == current * 2
  {}

  /** The doc comment promises a result never below current and never above max.
      The upper bound always holds; the lower one exactly when current <= max. */
  lemma NextBackoffBounds(current: Duration, max: Duration)
    ensures NextBackoff(current, max) <= max
    ensures NextBackoff(current, max) >= current <==> current <= max
  {
    if 0 < current {
      OverflowIsCaught(current);
    }
  }

  lemma {:induction false} DelayClosedForm(k: nat, initial: Duration, max: Duration)
    requires 0 < initial <= max
    ensures Delay(k, initial, max) == Min(initial * Pow2(k), max)
  {
    if k != 0 {
      DelayClosedForm(k - 1, initial, max);
      var previous := Delay(k - 1, initial, max);
      assert initial * Pow2(k) == 2 * (initial * Pow2(k - 1));
      assert initial * Pow2(k - 1) >= 1;
      OverflowIsCaught(previous);
    }
  }

  /** Delays never shrink and never exceed the cap. */
  lemma {:induction false} DelayMonotone(j: nat, k: nat, initial: Duration, max: Duration)
    requires 0 < initial <= max
    requires j <= k
    ensures initial <= Delay(j, initial, max) <= Delay(k, initial, max) <= max
    decreases k
  {
    if k != 0 {
      DelayMonotone(if j < k then j else k - 1, k - 1, initial, max);
      NextBackoffBounds(Delay(k - 1, initial, max), max);
    }
  }
}
