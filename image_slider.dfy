/** The prize carousel: the images it shows, the index arithmetic of its
    arrows, and the lock that ignores a move while a slide transition is
    under way. The autoplay interval fires `NextSlide`; the 500 ms end of a
    transition is the step `TransitionEnded`. */
module ImageSlider {
  import opened RaffleTypes

  /** The three bundled prize pictures. */
  const DefaultImages: seq<string> := ["prize-1.jpg", "prize-2.jpg", "prize-3.jpg"]

  /** `displayImages`: the given images when there is at least one,
      otherwise the bundled ones; never empty. */
  function DisplayImages(images: Option<seq<string>>): (shown: seq<string>)
    ensures |shown| >= 1
    ensures images.Some? && images.value != [] ==> shown == images.value
    ensures images.None? || images.value == [] ==> shown == DefaultImages
  {
    if images.Some? && |images.value| > 0 then images.value else DefaultImages
  }

  /** The "next" arrow: `(i + 1) % n`. JavaScript's `%` agrees with Dafny's
      on the non-negative operands used here. */
  function NextIndex(i: nat, n: nat): (j: nat)
    requires n >= 1
    ensures i < n ==> j < n
  {
    (i + 1) % n
  }

  /** The "previous" arrow: `(i - 1 + n) % n`. */
  function PrevIndex(i: nat, n: nat): (j: nat)
    requires n >= 1 && i < n
    ensures j < n
  {
    (i - 1 + n) % n
  }

  /** A non-zero multiple of a positive number is at least that number
      away from zero. */
  lemma MultipleSign(q: int, n: int)
    requires n >= 1
    ensures q >= 1 ==> q * n >= n
    ensures q <= -1 ==> q * n <= -n
  {
  }

  /** Writing `x` as `q0 * n + r0` with `0 <= r0 < n` determines the
      remainder. */
  lemma {:induction false} RemainderUnique(x: int, n: int, q0: int, r0: int)
    requires n >= 1 && 0 <= r0 < n && x == q0 * n + r0
    ensures x % n == r0
  {
    var q, r := x / n, x % n;
    assert x == q * n + r;
    assert (q - q0) * n == q * n - q0 * n;
    MultipleSign(q - q0, n);
  }

  /** Inside the carousel "next" moves one slide on and wraps from the last
      slide to the first, and "previous" moves one back and wraps from the
      first to the last. */
  lemma StepsWrap(i: nat, n: nat)
    requires n >= 1 && i < n
    ensures NextIndex(i, n) == if i == n - 1 then 0 else i + 1
    ensures PrevIndex(i, n) == if i == 0 then n - 1 else i - 1
  {
    if i == n - 1 {
      RemainderUnique(i + 1, n, 1, 0);
    } else {
      RemainderUnique(i + 1, n, 0, i + 1);
    }
    if i == 0 {
      RemainderUnique(i - 1 + n, n, 0, n - 1);
    } else {
      RemainderUnique(i - 1 + n, n, 1, i - 1);
    }
  }

  /** "Previous" undoes "next" and "next" undoes "previous". */
  lemma ArrowsInverse(i: nat, n: nat)
    requires n >= 1 && i < n
    ensures PrevIndex(NextIndex(i, n), n) == i
    ensures NextIndex(PrevIndex(i, n), n) == i
  {
    StepsWrap(i, n);
    StepsWrap(NextIndex(i, n), n);
    StepsWrap(PrevIndex(i, n), n);
  }

  /** The index after `k` presses of "next" (or autoplay ticks). */
  function AdvanceBy(i: nat, n: nat, k: nat): (j: nat)
    requires n >= 1 && i < n
    ensures j < n
    decreases k
  {
    if k == 0 then i else AdvanceBy(NextIndex(i, n), n, k - 1)
  }

  /** Advancing by `a` and then by `b` is advancing by `a + b`. */
  lemma {:induction false} AdvanceCompose(i: nat, n: nat, a: nat, b: nat)
    requires n >= 1 && i < n
    ensures AdvanceBy(AdvanceBy(i, n, a), n, b) == AdvanceBy(i, n, a + b)
    decreases a
  {
    if a > 0 {
      AdvanceCompose(NextIndex(i, n), n, a - 1, b);
    }
  }

  /** Before the wrap, `k` presses move `k` slides on. */
  lemma {:induction false} AdvanceWithoutWrap(i: nat, n: nat, k: nat)
    requires n >= 1 && i + k < n
    ensures AdvanceBy(i, n, k) == i + k
    decreases k
  {
    if k > 0 {
      StepsWrap(i, n);
      AdvanceWithoutWrap(i + 1, n, k - 1);
    }
  }

  /** From slide `i`, `n - i` presses reach the first slide. */
  lemma AdvanceToFirst(i: nat, n: nat)
    requires n >= 1 && i < n
    ensures AdvanceBy(i, n, n - i) == 0
  {
    AdvanceWithoutWrap(i, n, n - 1 - i);
    AdvanceCompose(i, n, n - 1 - i, 1);
    StepsWrap(n - 1, n);
  }

  /** `n` presses of "next" go once round the carousel and come back to the
      slide they started from. */
  lemma FullCycle(i: nat, n: nat)
    requires n >= 1 && i < n
    ensures AdvanceBy(i, n, n) == i
  {
    AdvanceToFirst(i, n);
    AdvanceCompose(i, n, n - i, i);
    AdvanceWithoutWrap(0, n, i);
  }

  /** The carousel's state over the images it shows. */
  class Slider {
    const images: seq<string>
    var currentIndex: nat
    var isTransitioning: bool

    /** There is a slide to show and the index points at one. */
    ghost predicate Valid()
      reads this
    {
      |images| >= 1 && currentIndex < |images|
    }

    constructor (imagesProp: Option<seq<string>>)
      ensures Valid()
      ensures images == DisplayImages(imagesProp)
      ensures currentIndex == 0 && !isTransitioning
    {
      images := DisplayImages(imagesProp);
      currentIndex := 0;
      isTransitioning := false;
    }

    /** `goToSlide(index)`, called by the indicator dots (one per image)
        and by the arrows: ignored during a transition, otherwise it shows
        the slide and takes the lock. */
    method GoToSlide(index: nat)
      requires Valid() && index < |images|
      modifies this
      ensures Valid()
      ensures old(isTransitioning) ==> currentIndex == old(currentIndex) && isTransitioning
      ensures !old(isTransitioning) ==> currentIndex == index && isTransitioning
    {
      if isTransitioning {
        return;
      }
      isTransitioning := true;
      currentIndex := index;
    }

    /** The end of the 500 ms transition releases the lock. */
    method TransitionEnded()
      requires Valid()
      modifies this
      ensures Valid()
      ensures currentIndex == old(currentIndex) && !isTransitioning
    {
      isTransitioning := false;
    }

    /** `nextSlide`, from the right arrow and from each autoplay tick. */
    method NextSlide()
      requires Valid()
      modifies this
      ensures Valid() && isTransitioning
      ensures currentIndex == if old(isTransitioning) then old(currentIndex)
        else NextIndex(old(currentIndex), |images|)
    {
      GoToSlide(NextIndex(currentIndex, |images|));
    }

    /** `prevSlide`, from the left arrow. */
    method PrevSlide()
      requires Valid()
      modifies this
      ensures Valid() && isTransitioning
      ensures currentIndex == if old(isTransitioning) then old(currentIndex)
        else PrevIndex(old(currentIndex), |images|)
    {
      GoToSlide(PrevIndex(currentIndex, |images|));
    }
  }
}
