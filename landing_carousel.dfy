/**
  The two-image carousel of components/landing-slides/landing-slide-5.tsx: a cyclic
  `currentImageIndex` moved by the arrow buttons and a five-second auto-advance, with the
  current image drawn at opacity 1 on top. Each timer tick is one call of AutoAdvance.
 */
module LandingCarousel {
  import opened Stepping

  /** `images.length`. */
  const ImageCount := 2

  /** The animated `opacity` of image `index`. */
  function Opacity(current: int, index: int): int
  {
    if current == index then 1 else 0
  }

  /** The animated `zIndex` of image `index`. */
  function ZIndex(current: int, index: int): int
  {
    if current == index then 1 else 0
  }

  /** Exactly one image is visible and on top: the one at the current index. */
  lemma OnlyCurrentImageVisible(current: int)
    requires 0 <= current < ImageCount
    ensures (set k | 0 <= k < ImageCount && Opacity(current, k) == 1 && ZIndex(current, k) == 1) == {current}
    ensures forall k :: 0 <= k < ImageCount && k != current ==> Opacity(current, k) == 0 && ZIndex(current, k) == 0
  {
    var top := set k | 0 <= k < ImageCount && Opacity(current, k) == 1 && ZIndex(current, k) == 1;
    assert current in top;
    forall k | k in top ensures k == current { }
  }

  /** With two images both buttons toggle: next and prev have the same effect. */
  lemma NextEqualsPrev(i: int)
    requires 0 <= i < ImageCount
    ensures CyclicNext(ImageCount, i) == CyclicPrev(ImageCount, i) == 1 - i
  {
  }

  /** Two forward steps are the identity. */
  lemma TwoNextsIsIdentity(i: int)
    requires 0 <= i < ImageCount
    ensures CyclicNextTimes(ImageCount, i, 2) == i
  {
    FullCycleIsIdentity(ImageCount, i);
  }

  class Carousel {
    var currentImageIndex: int

    ghost predicate Valid()
      reads this
    {
      0 <= currentImageIndex < ImageCount
    }

    constructor ()
      ensures Valid() && currentImageIndex == 0
    {
      currentImageIndex := 0;
    }

    method NextImage()
      requires Valid()
      modifies this
      ensures Valid()
      ensures currentImageIndex == CyclicNext(ImageCount, old(currentImageIndex))
    {
      currentImageIndex := JsRem(currentImageIndex + 1, ImageCount);
    }

    method PrevImage()
      requires Valid()
      modifies this
      ensures Valid()
      ensures currentImageIndex == CyclicPrev(ImageCount, old(currentImageIndex))
    {
      currentImageIndex := JsRem(currentImageIndex - 1 + ImageCount, ImageCount);
    }

    /** One tick of the five-second timer: the same step as NextImage. */
    method AutoAdvance()
      requires Valid()
      modifies this
      ensures Valid()
      ensures currentImageIndex == CyclicNext(ImageCount, old(currentImageIndex))
    {
      currentImageIndex := JsRem(currentImageIndex + 1, ImageCount);
    }
  }
}
