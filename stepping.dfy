/**
  Index arithmetic shared by the slide cursors and the image carousels.

  The deck (app/page.tsx) and the generic provider (components/presentation-context.tsx)
  both step their slide index with the same clamped updaters, and both carousels step
  their image index with the same cyclic updaters built on the JavaScript `%` operator.
  Each rule is defined once here.
 */
module Stepping {

  /** `prev < total - 1 ? prev + 1 : prev`: one step forward, saturating at the last index. */
  function ClampedNext(total: int, i: int): (r: int)
    ensures r == i || r == i + 1
    ensures r > i <==> i < total - 1
    ensures 0 <= i ==> 0 <= r
    ensures i < total ==> r < total
  {
    if i < total - 1 then i + 1 else i
  }

  /** `prev > 0 ? prev - 1 : prev`: one step back, saturating at index 0. */
  function ClampedPrev(i: int): (r: int)
    ensures r == i || r == i - 1
    ensures r < i <==> i > 0
    ensures 0 <= i ==> 0 <= r
  {
    if i > 0 then i - 1 else i
  }

  /** The index reached by k forward steps. */
  function ClampedNextTimes(total: int, i: int, k: nat): int
    decreases k
  {
    if k == 0 then i else ClampedNextTimes(total, ClampedNext(total, i), k - 1)
  }

  /** The index reached by k backward steps. */
  function ClampedPrevTimes(i: int, k: nat): int
    decreases k
  {
    if k == 0 then i else ClampedPrevTimes(ClampedPrev(i), k - 1)
  }

  function Min(a: int, b: int): int { if a <= b then a else b }

  function Max(a: int, b: int): int { if a >= b then a else b }

  /** Stepping forward k times from a valid index stops exactly at the last index. */
  lemma {:induction false} ClampedNextTimesSaturates(total: int, i: int, k: nat)
    requires 0 <= i < total
    ensures ClampedNextTimes(total, i, k) == Min(i + k, total - 1)
    decreases k
  {
    if k > 0 {
      ClampedNextTimesSaturates(total, ClampedNext(total, i), k - 1);
    }
  }

  /** Stepping back k times from a non-negative index stops exactly at index 0. */
  lemma {:induction false} ClampedPrevTimesSaturates(i: int, k: nat)
    requires 0 <= i
    ensures ClampedPrevTimes(i, k) == Max(i - k, 0)
    decreases k
  {
    if k > 0 {
      ClampedPrevTimesSaturates(ClampedPrev(i), k - 1);
    }
  }

  /**
    The JavaScript remainder `a % n` for a positive divisor: it truncates toward zero,
    so the result takes the sign of `a` (Dafny's own `%` is Euclidean).
   */
  function JsRem(a: int, n: int): (r: int)
    requires n > 0
    ensures a == JsQuot(a, n) * n + r
    ensures -n < r < n
    ensures a >= 0 ==> r >= 0
    ensures a < 0 ==> r <= 0
    ensures -n < a < n ==> r == a
    ensures n <= a < 2 * n ==> r == a - n
  {
    if a >= 0 then
      SmallRemainder(a, n);
      a % n
    else
      SmallRemainder(-a, n);
      NegatedDivision(-a, n);
      -((-a) % n)
  }

  /** JavaScript's integer quotient `Math.trunc(a / n)` for a positive divisor: it rounds toward zero. */
  function JsQuot(a: int, n: int): int
    requires n > 0
  {
    if a >= 0 then a / n else -((-a) / n)
  }

  /** The remainder takes the sign of the dividend: 7 % 3 is 1 and -7 % 3 is -1. */
  lemma JsRemExamples()
    ensures JsRem(7, 3) == 1 && JsRem(-7, 3) == -1
  {
    assert 7 % 3 == 1;
  }

  lemma NegatedDivision(b: int, n: int)
    requires n > 0 && b > 0
    ensures -b == -(b / n) * n + -(b % n)
  {
    var q := b / n;
    assert b == q * n + b % n;
    assert -(q * n) == (-q) * n;
  }

  lemma SmallRemainder(a: int, n: int)
    requires n > 0 && 0 <= a
    ensures a < n ==> a % n == a
    ensures n <= a < 2 * n ==> a % n == a - n
  {
    if n <= a < 2 * n {
      assert (a - n + n) % n == a - n;
    }
  }

  /** `(prev + 1) % length`: advance one image, wrapping after the last. */
  function CyclicNext(n: int, i: int): (r: int)
    requires 0 <= i < n
    ensures 0 <= r < n
    ensures r == if i == n - 1 then 0 else i + 1
  {
    JsRem(i + 1, n)
  }

  /** `(prev - 1 + length) % length`: go back one image, wrapping before the first. */
  function CyclicPrev(n: int, i: int): (r: int)
    requires 0 <= i < n
    ensures 0 <= r < n
    ensures r == if i == 0 then n - 1 else i - 1
  {
    JsRem(i - 1 + n, n)
  }

  /** The index reached by k cyclic forward steps. */
  function CyclicNextTimes(n: int, i: int, k: nat): (r: int)
    requires 0 <= i < n
    ensures 0 <= r < n
    decreases k
  {
    if k == 0 then i else CyclicNextTimes(n, CyclicNext(n, i), k - 1)
  }

  lemma PrevUndoesNext(n: int, i: int)
    requires 0 <= i < n
    ensures CyclicPrev(n, CyclicNext(n, i)) == i
  {
  }

  lemma NextUndoesPrev(n: int, i: int)
    requires 0 <= i < n
    ensures CyclicNext(n, CyclicPrev(n, i)) == i
  {
  }

  /** Before wrapping, k forward steps move the index by exactly k. */
  lemma {:induction false} CyclicNextTimesBeforeWrap(n: int, i: int, k: nat)
    requires 0 <= i && i + k < n
    ensures CyclicNextTimes(n, i, k) == i + k
    decreases k
  {
    if k > 0 {
      CyclicNextTimesBeforeWrap(n, i + 1, k - 1);
    }
  }

  /** Stepping k1 + k2 times is stepping k1 times and then k2 times. */
  lemma {:induction false} CyclicNextTimesCompose(n: int, i: int, k1: nat, k2: nat)
    requires 0 <= i < n
    ensures CyclicNextTimes(n, i, k1 + k2) == CyclicNextTimes(n, CyclicNextTimes(n, i, k1), k2)
    decreases k1
  {
    if k1 > 0 {
      CyclicNextTimesCompose(n, CyclicNext(n, i), k1 - 1, k2);
    }
  }

  /** n forward steps bring the carousel back to where it started. */
  lemma FullCycleIsIdentity(n: int, i: int)
    requires 0 <= i < n
    ensures CyclicNextTimes(n, i, n) == i
  {
    CyclicNextTimesCompose(n, i, n - 1 - i, i + 1);
    CyclicNextTimesBeforeWrap(n, i, n - 1 - i);
    assert CyclicNextTimes(n, n - 1, i + 1) == CyclicNextTimes(n, 0, i);
    CyclicNextTimesBeforeWrap(n, 0, i);
  }
}
