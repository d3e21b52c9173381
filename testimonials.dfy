/**
 * The testimonial highlight: every tick of the interval moves the highlight
 * to the next testimonial, wrapping round after the last one.
 */
module Testimonials {

  /** The highlighted position after k ticks, starting from the first testimonial. */
  function AfterTicks(count: nat, k: nat): nat
    requires 0 < count
  {
    if k == 0 then 0 else (AfterTicks(count, k - 1) + 1) % count
  }

  /** The highlight visits the testimonials in turn: after k ticks it is on k mod count, always a valid position. */
  lemma {:induction false} AfterTicksCycles(count: nat, k: nat)
    requires 0 < count
    ensures AfterTicks(count, k) == k % count
    ensures AfterTicks(count, k) < count
  {
    if k > 0 {
      var j := k - 1;
      AfterTicksCycles(count, j);
      ModNext(j, count);
      assert AfterTicks(count, k) == (j % count + 1) % count;
    } else {
      ModUnique(0, count, 0, 0);
    }
  }

  lemma MulAtLeast(a: int, n: int)
    requires a >= 1 && n > 0
    ensures a * n >= n
  {
    assert a * n == (a - 1) * n + n;
    assert (a - 1) * n >= 0;
  }

  /** The remainder is the r of any decomposition x = q * n + r with 0 <= r < n. */
  lemma ModUnique(x: int, n: int, q: int, r: int)
    requires n > 0 && 0 <= r < n && x == q * n + r
    ensures x % n == r
  {
    var q', r' := x / n, x % n;
    assert x == q' * n + r';
    assert (q - q') * n == r' - r by {
      assert (q - q') * n == q * n - q' * n;
    }
    if q > q' {
      MulAtLeast(q - q', n);
    } else if q < q' {
      MulAtLeast(q' - q, n);
    }
  }

  lemma ModNext(j: nat, n: nat)
    requires n > 0
    ensures (j % n + 1) % n == (j + 1) % n
  {
    var q, r := j / n, j % n;
    assert j == q * n + r;
    if r + 1 == n {
      ModUnique(j + 1, n, q + 1, 0);
      ModUnique(r + 1, n, 1, 0);
    } else {
      ModUnique(j + 1, n, q, r + 1);
      ModUnique(r + 1, n, 0, r + 1);
    }
  }

  /** The `currentTestimonial` counter; it exists only when the page has at least one testimonial. */
  class Rotation {
    const count: nat
    var current: nat

    ghost predicate Valid()
      reads this
    {
      0 < count && current < count
    }

    constructor (count: nat)
      requires 0 < count
      ensures Valid() && this.count == count && current == 0
    {
      this.count := count;
      current := 0;
    }

    /** One tick of the interval: `(currentTestimonial + 1) % testimonials.length`. */
    method Tick()
      requires Valid()
      modifies this
      ensures Valid() && current == (old(current) + 1) % count
    {
      current := (current + 1) % count;
    }
  }
}
