/** The testimonial carousel: one index into a fixed list, moved by next, previous and the dots. */
module Testimonials {

  /** The carousel shows five testimonials. */
  const TestimonialCount: nat := 5

  /** `x % n` of a value below n. */
  lemma ModBelow(x: int, n: int)
    requires 0 <= x < n
    ensures x % n == x
  {
  }

  /** `x % n` of a value in [n, 2n). */
  lemma ModWrap(x: int, n: int)
    requires 0 < n <= x < 2 * n
    ensures x % n == x - n
  {
  }

  /** `(i + 1) % n`: one step forward, wrapping from the last testimonial to the first. */
  function NextIndex(i: nat, n: nat): (j: nat)
    requires i < n
    ensures j < n
    ensures j == if i + 1 < n then i + 1 else 0
  {
    if i + 1 < n then ModBelow(i + 1, n); (i + 1) % n
    else ModWrap(i + 1, n); (i + 1) % n
  }

  /**
   * `(i - 1 + n) % n`: one step back, wrapping from the first testimonial to
   * the last. The operand is never negative, so JavaScript's `%` and Dafny's agree.
   */
  function PrevIndex(i: nat, n: nat): (j: nat)
    requires i < n
    ensures j < n
    ensures j == if i == 0 then n - 1 else i - 1
  {
    if i == 0 then ModBelow(i - 1 + n, n); (i - 1 + n) % n
    else ModWrap(i - 1 + n, n); (i - 1 + n) % n
  }

  /** Next undoes previous and previous undoes next. */
  lemma NextPrevInverse(i: nat, n: nat)
    requires i < n
    ensures NextIndex(PrevIndex(i, n), n) == i
    ensures PrevIndex(NextIndex(i, n), n) == i
  {
  }

  /** k presses of next from i. */
  function Advance(i: nat, k: nat, n: nat): (j: nat)
    requires i < n
    ensures j < n
  {
    if k == 0 then i else NextIndex(Advance(i, k - 1, n), n)
  }

  /** Pressing next a + b times is pressing it a times and then b times. */
  lemma {:induction false} AdvanceAdd(i: nat, a: nat, b: nat, n: nat)
    requires i < n
    ensures Advance(i, a + b, n) == Advance(Advance(i, a, n), b, n)
  {
    if b > 0 {
      AdvanceAdd(i, a, b - 1, n);
    }
  }

  /** Without reaching the end, k presses move k places. */
  lemma {:induction false} AdvanceWithinRing(i: nat, k: nat, n: nat)
    requires i + k < n
    ensures Advance(i, k, n) == i + k
  {
    if k > 0 {
      AdvanceWithinRing(i, k - 1, n);
    }
  }

  /** n presses of next bring the carousel back to where it started. */
  lemma FullCycleReturns(i: nat, n: nat)
    requires i < n
    ensures Advance(i, n, n) == i
  {
    AdvanceAdd(i, n - i - 1, 1, n);
    AdvanceWithinRing(i, n - i - 1, n);
    assert Advance(i, n - i, n) == 0;
    AdvanceAdd(i, n - i, i, n);
    if i > 0 {
      AdvanceWithinRing(0, i, n);
    }
  }

  /** The component's `currentIndex` state. */
  class Carousel {
    var index: nat
    const size: nat

    ghost predicate Valid()
      reads this
    {
      0 < size && index < size
    }

    /** The carousel opens on the first testimonial. */
    constructor ()
      ensures Valid() && size == TestimonialCount && index == 0
    {
      size := TestimonialCount;
      index := 0;
    }

    /** `nextTestimonial`. */
    method Next()
      requires Valid()
      modifies this
      ensures Valid() && index == NextIndex(old(index), size)
    {
      index := (index + 1) % size;
    }

    /** `prevTestimonial`. */
    method Prev()
      requires Valid()
      modifies this
      ensures Valid() && index == PrevIndex(old(index), size)
    {
      index := (index - 1 + size) % size;
    }

    /** A dot click: one dot is drawn per testimonial, so its position is in range. */
    method Select(dot: nat)
      requires Valid() && dot < size
      modifies this
      ensures Valid() && index == dot
    {
      index := dot;
    }
  }
}
