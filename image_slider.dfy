/**
  The image slider of components/slides/slide-3.tsx: three images, a cyclic
  `currentImageIndex` moved by the arrow buttons, a five-second auto-advance and the dots.
  Each timer tick is one call of AutoAdvance.
 */
module ImageSlider {
  import opened Stepping

  /** `images.length`. */
  const ImageCount := 3

  /** The `custom` direction an image enters with: -1 for images before the current one, else +1. */
  function EnterDirection(current: int, index: int): (d: int)
    ensures d == -1 || d == 1
    ensures d == -1 <==> index < current
  {
    if current > index then -1 else 1
  }

  /** Whether an image is displayed (`display: block`) and animated to "center". */
  predicate Displayed(current: int, index: int)
  {
    index == current
  }

  /** Exactly one image is displayed: the one at the current index. */
  lemma OnlyCurrentImageDisplayed(current: int)
    requires 0 <= current < ImageCount
    ensures (set k | 0 <= k < ImageCount && Displayed(current, k)) == {current}
  {
    var shown := set k | 0 <= k < ImageCount && Displayed(current, k);
    assert current in shown;
    forall k | k in shown ensures k == current { }
  }

  /** Stepping back after stepping forward, or forward after back, returns to the same image. */
  lemma NextPrevInverse(i: int)
    requires 0 <= i < ImageCount
    ensures CyclicPrev(ImageCount, CyclicNext(ImageCount, i)) == i
    ensures CyclicNext(ImageCount, CyclicPrev(ImageCount, i)) == i
  {
    PrevUndoesNext(ImageCount, i);
    NextUndoesPrev(ImageCount, i);
  }

  /** Three forward steps, by button or timer, bring the slider back to the same image. */
  lemma ThreeNextsIsIdentity(i: int)
    requires 0 <= i < ImageCount
    ensures CyclicNextTimes(ImageCount, i, 3) == i
  {
    FullCycleIsIdentity(ImageCount, i);
  }

  class Slider {
    var currentImageIndex: int

    ghost predicate Valid()
      reads this
    {
      0 <= currentImageIndex < ImageCount
    }

    constructor ()
      ensures Valid() && currentImageIndex == 0
    {
      currentImageIndex := 0;
    }

    /** The right-hand button. */
    method NextImage()
      requires Valid()
      modifies this
      ensures Valid()
      ensures currentImageIndex == CyclicNext(ImageCount, old(currentImageIndex))
    {
      currentImageIndex := JsRem(currentImageIndex + 1, ImageCount);
    }

    /** The left-hand button. */
    method PrevImage()
      requires Valid()
      modifies this
      ensures Valid()
      ensures currentImageIndex == CyclicPrev(ImageCount, old(currentImageIndex))
    {
      currentImageIndex := JsRem(currentImageIndex - 1 + ImageCount, ImageCount);
    }

    /** One tick of the five-second interval: the same step as NextImage. */
    method AutoAdvance()
      requires Valid()
      modifies this
      ensures Valid()
      ensures currentImageIndex == CyclicNext(ImageCount, old(currentImageIndex))
    {
      currentImageIndex := JsRem(currentImageIndex + 1, ImageCount);
    }

    /** Clicking the dot of image k; the dots are drawn for k in [0, images.length). */
    method DotClick(k: int)
      requires Valid()
      requires 0 <= k < ImageCount
      modifies this
      ensures Valid()
      ensures currentImageIndex == k
    {
      currentImageIndex := k;
    }
  }
}
