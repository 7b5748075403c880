/** The hero carousel: a fixed list of slides, one of them shown, advanced
    by a timer, by the indicator dots and by the two arrows. */
module HeroCarousel {

  /** The number of slides in the component's list. */
  const SlideCount := 3

  /** The successor the timer and the next arrow use:
      `i === len - 1 ? 0 : i + 1`. */
  function Next(i: int, n: int): (j: int)
    requires 0 <= i < n
    ensures 0 <= j < n
    ensures j == (i + 1) % n
  {
    if i == n - 1 then 0 else i + 1
  }

  /** The predecessor the previous arrow uses: `i === 0 ? len - 1 : i - 1`. */
  function Prev(i: int, n: int): (j: int)
    requires 0 <= i < n
    ensures 0 <= j < n
    ensures j == (i + n - 1) % n
  {
    if i == 0 then n - 1 else i - 1
  }

  /** The two arrows undo each other. */
  lemma PrevThenNext(i: int, n: int)
    requires 0 <= i < n
    ensures Next(Prev(i, n), n) == i
    ensures Prev(Next(i, n), n) == i
  {
  }

  /** `k` ticks of the timer from slide `i`. */
  function Advance(i: int, n: int, k: nat): (j: int)
    requires 0 <= i < n
    ensures 0 <= j < n
    decreases k
  {
    if k == 0 then i else Advance(Next(i, n), n, k - 1)
  }

  /** Ticks that do not pass the last slide just add up. */
  lemma {:induction false} AdvanceWithoutWrap(i: int, n: int, k: nat)
    requires 0 <= i && i + k < n
    ensures Advance(i, n, k) == i + k
    decreases k
  {
    if k > 0 {
      AdvanceWithoutWrap(i + 1, n, k - 1);
    }
  }

  /** `a` ticks and then `b` more are `a + b` ticks. */
  lemma {:induction false} AdvanceAdds(i: int, n: int, a: nat, b: nat)
    requires 0 <= i < n
    ensures Advance(Advance(i, n, a), n, b) == Advance(i, n, a + b)
    decreases a
  {
    if a > 0 {
      AdvanceAdds(Next(i, n), n, a - 1, b);
    }
  }

  /** A full round of `n` ticks comes back to the slide it started from. */
  lemma FullRoundReturns(i: int, n: int)
    requires 0 <= i < n
    ensures Advance(i, n, n) == i
  {
    var a := n - 1 - i;
    AdvanceWithoutWrap(i, n, a);
    assert Advance(i, n, a + 1) == 0 by {
      AdvanceAdds(i, n, a, 1);
    }
    AdvanceAdds(i, n, a + 1, i);
    AdvanceWithoutWrap(0, n, i);
  }

  class Carousel {
    var currentSlide: int

    ghost predicate Valid()
      reads this
    {
      0 <= currentSlide < SlideCount
    }

    constructor ()
      ensures Valid() && currentSlide == 0
    {
      currentSlide := 0;
    }

    /** The interval callback: the next slide, wrapping to the first after
      the last. */
    method AutoAdvance()
      requires Valid()
      modifies this
      ensures Valid() && currentSlide == Next(old(currentSlide), SlideCount)
    {
      currentSlide := if currentSlide == SlideCount - 1 then 0 else currentSlide + 1;
    }

    /** `goToSlide(index)`: slide `index`, taken as given. */
    method GoToSlide(index: int)
      modifies this
      ensures currentSlide == index
    {
      currentSlide := index;
    }

    /** The dot for slide `index`; only dots for existing slides are drawn. */
    method Indicator(index: int)
      requires 0 <= index < SlideCount
      modifies this
      ensures Valid() && currentSlide == index
    {
      GoToSlide(index);
    }

    /** The previous arrow. */
    method PrevArrow()
      requires Valid()
      modifies this
      ensures Valid() && currentSlide == Prev(old(currentSlide), SlideCount)
    {
      GoToSlide(if currentSlide == 0 then SlideCount - 1 else currentSlide - 1);
    }

    /** The next arrow. */
    method NextArrow()
      requires Valid()
      modifies this
      ensures Valid() && currentSlide == Next(old(currentSlide), SlideCount)
    {
      GoToSlide(if currentSlide == SlideCount - 1 then 0 else currentSlide + 1);
    }
  }
}
