/**
  The generic slide cursor of components/presentation-context.tsx: a provider that holds
  `currentSlide` for a fixed `totalSlides` and moves it with clamped steps and a
  bounds-checked jump. Unlike the page's own handlers it refuses out-of-range jumps.
 */
module Presentation {
  import opened Stepping

  /** The `totalSlides` prop defaults to 1. */
  const DefaultTotalSlides := 1

  /** `goToSlide(index)`: move only to an index inside [0, totalSlides). */
  function CheckedJump(total: int, i: int, index: int): (r: int)
    ensures r == index || r == i
    ensures 0 <= index < total ==> r == index
    ensures r != i ==> 0 <= r < total
  {
    if 0 <= index < total then index else i
  }

  /** The cursor's invariant: an index of the deck, or 0 when the deck is empty. */
  predicate InRange(total: int, i: int)
  {
    0 <= i && (i == 0 || i < total)
  }

  /** Each operation keeps the cursor in range, and with at least one slide strictly inside [0, total). */
  lemma OperationsKeepInRange(total: int, i: int, index: int)
    requires InRange(total, i)
    ensures InRange(total, ClampedNext(total, i))
    ensures InRange(total, ClampedPrev(i))
    ensures InRange(total, CheckedJump(total, i, index))
    ensures total >= 1 ==> 0 <= i < total
  {
  }

  /** At the last slide nextSlide changes nothing, so pressing it again is a no-op too. */
  lemma NextAtLastIsNoOp(total: int)
    requires total >= 1
    ensures ClampedNext(total, total - 1) == total - 1
    ensures ClampedNext(total, ClampedNext(total, total - 1)) == ClampedNext(total, total - 1)
  {
  }

  /** At slide 0 prevSlide changes nothing. */
  lemma PrevAtFirstIsNoOp()
    ensures ClampedPrev(0) == 0
  {
  }

  /** A rejected jump leaves the index where it was; an accepted one lands exactly on the target. */
  lemma JumpAcceptedIffInRange(total: int, i: int, index: int)
    requires index != i
    ensures CheckedJump(total, i, index) == index <==> 0 <= index < total
  {
  }

  class PresentationProvider {
    const totalSlides: int
    var currentSlide: int

    ghost predicate Valid()
      reads this
    {
      InRange(totalSlides, currentSlide)
    }

    constructor (totalSlides: int)
      ensures Valid()
      ensures this.totalSlides == totalSlides && currentSlide == 0
    {
      this.totalSlides := totalSlides;
      currentSlide := 0;
    }

    /** A provider mounted without the `totalSlides` prop. */
    constructor WithDefaultTotal()
      ensures Valid()
      ensures totalSlides == DefaultTotalSlides && currentSlide == 0
    {
      totalSlides := DefaultTotalSlides;
      currentSlide := 0;
    }

    method NextSlide()
      requires Valid()
      modifies this
      ensures Valid()
      ensures currentSlide == ClampedNext(totalSlides, old(currentSlide))
    {
      currentSlide := if currentSlide < totalSlides - 1 then currentSlide + 1 else currentSlide;
    }

    method PrevSlide()
      requires Valid()
      modifies this
      ensures Valid()
      ensures currentSlide == ClampedPrev(old(currentSlide))
    {
      currentSlide := if currentSlide > 0 then currentSlide - 1 else currentSlide;
    }

    method GoToSlide(index: int)
      requires Valid()
      modifies this
      ensures Valid()
      ensures currentSlide == CheckedJump(totalSlides, old(currentSlide), index)
    {
      if index >= 0 && index < totalSlides {
        currentSlide := index;
      }
    }
  }
}
