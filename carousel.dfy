/** The carousel widget of carousel.js: a slide index moved by the prev and
    next triggers and by horizontal swipes, wrapping in loop mode and
    clamped otherwise, with the triggers' `disabled` attributes derived from
    the index in non-loop mode. */
module Carousel {
  import opened Basics

  /** A swipe counts only when the finger moved more than this many pixels. */
  const SwipeThreshold: int := 50

  /** JavaScript's `%`: the remainder takes the sign of the dividend. */
  function JsRem(a: int, n: int): (r: int)
    requires n > 0
    ensures a >= 0 ==> r == a % n
    ensures -n < r < n
  {
    if a >= 0 then a % n else -((-a) % n)
  }

  /** The non-loop clamp: the index limited to the range 0 to the last slide. */
  function Clamp(index: int, totalSlides: int): (r: int)
    requires totalSlides > 0
    ensures 0 <= r < totalSlides
    ensures 0 <= index < totalSlides ==> r == index
    ensures index < 0 ==> r == 0
    ensures index >= totalSlides ==> r == totalSlides - 1
  {
    if index < 0 then 0 else if index > totalSlides - 1 then totalSlides - 1 else index
  }

  /** A positive multiple of n is at least n. */
  lemma {:induction false} MultipleAtLeast(n: int, k: int)
    requires n > 0 && k >= 1
    ensures n * k >= n
    decreases k
  {
    if k > 1 {
      MultipleAtLeast(n, k - 1);
      assert n * k == n * (k - 1) + n;
    }
  }

  /** Euclidean division is unique: a quotient and a remainder in range are
      the ones `/` and `%` give. */
  lemma ModUnique(a: int, n: int, q: int, r: int)
    requires n > 0 && 0 <= r < n && a == n * q + r
    ensures a % n == r
  {
    var q0, r0 := a / n, a % n;
    assert a == n * q0 + r0;
    assert n * (q - q0) == r0 - r;
    if q > q0 {
      MultipleAtLeast(n, q - q0);
      assert false;
    }
    if q < q0 {
      assert n * (q0 - q) == r - r0;
      MultipleAtLeast(n, q0 - q);
      assert false;
    }
  }

  /** The remainder of a dividend below three times the divisor. */
  lemma ModSmall(a: int, n: int)
    requires n > 0 && 0 <= a < 3 * n
    ensures a % n == if a < n then a else if a < 2 * n then a - n else a - 2 * n
  {
    if a < n {
      ModUnique(a, n, 0, a);
    } else if a < 2 * n {
      ModUnique(a, n, 1, a - n);
    } else {
      ModUnique(a, n, 2, a - 2 * n);
    }
  }

  /** The index goToSlide(index) settles on: in loop mode an index one step
      outside the range wraps to the other end, otherwise it is clamped; an
      index inside the range is kept in both modes. */
  function SlideFor(isLooping: bool, totalSlides: int, index: int): (r: int)
    requires totalSlides > 0
    ensures -1 <= index <= totalSlides ==> 0 <= r < totalSlides
    ensures 0 <= index < totalSlides ==> r == index
    ensures isLooping && index == -1 ==> r == totalSlides - 1
    ensures isLooping && index == totalSlides ==> r == 0
    ensures !isLooping ==> r == Clamp(index, totalSlides)
  {
    if isLooping then
      if 0 <= index + totalSlides < 3 * totalSlides then
        ModSmall(index + totalSlides, totalSlides);
        JsRem(index + totalSlides, totalSlides)
      else JsRem(index + totalSlides, totalSlides)
    else Clamp(index, totalSlides)
  }

  /** From any valid index, one step either way lands on a valid index. */
  lemma StepInRange(isLooping: bool, totalSlides: int, current: int, index: int)
    requires 0 <= current < totalSlides
    requires current - 1 <= index <= current + 1
    ensures 0 <= SlideFor(isLooping, totalSlides, index) < totalSlides
  {
  }

  /** In loop mode next from the last slide wraps to the first, prev from
      the first wraps to the last, and any other step moves by one. */
  lemma LoopWraps(totalSlides: int, current: int)
    requires 0 <= current < totalSlides
    ensures SlideFor(true, totalSlides, current + 1) == if current == totalSlides - 1 then 0 else current + 1
    ensures SlideFor(true, totalSlides, current - 1) == if current == 0 then totalSlides - 1 else current - 1
  {
  }

  /** In loop mode next followed by prev returns to the starting slide. */
  lemma {:induction false} LoopNextThenPrev(totalSlides: int, current: int)
    requires 0 <= current < totalSlides
    ensures SlideFor(true, totalSlides, SlideFor(true, totalSlides, current + 1) - 1) == current
  {
    LoopWraps(totalSlides, current);
    var next := SlideFor(true, totalSlides, current + 1);
    LoopWraps(totalSlides, next);
  }

  /** In non-loop mode prev at the first slide and next at the last slide
      leave the index where it is. */
  lemma ClampedAtEnds(totalSlides: int)
    requires totalSlides > 0
    ensures SlideFor(false, totalSlides, 0 - 1) == 0
    ensures SlideFor(false, totalSlides, totalSlides - 1 + 1) == totalSlides - 1
  {
  }

  /** The touchend rule: the target index of a swipe, or None when the
      movement is within the threshold. A leftward swipe goes to the next
      slide, a rightward swipe to the previous one. */
  function SwipeTarget(touchStartX: int, touchEndX: int, current: int): (r: Option<int>)
    ensures r.None? <==> -SwipeThreshold <= touchEndX - touchStartX <= SwipeThreshold
    ensures r.Some? && touchEndX < touchStartX ==> r.value == current + 1
    ensures r.Some? && touchEndX > touchStartX ==> r.value == current - 1
  {
    var delta := touchEndX - touchStartX;
    var distance := if delta < 0 then -delta else delta;
    if distance > SwipeThreshold then
      Some(if touchEndX < touchStartX then current + 1 else current - 1)
    else None
  }

  /** One carousel element after its setup. It is only created when the
      slides container exists and there is at least one item. */
  class Carousel {
    const totalSlides: int
    const isLooping: bool
    /** Whether the prev and next triggers exist. */
    const hasPrev: bool
    const hasNext: bool
    var currentIndex: int
    /** The triggers' `disabled` attributes. */
    var prevDisabled: bool
    var nextDisabled: bool
    var touchStartX: int

    /** Non-loop mode: each existing trigger's disabled flag mirrors the index. */
    predicate FlagsMatchIndex()
      reads this
    {
      && (hasPrev ==> prevDisabled == (currentIndex == 0))
      && (hasNext ==> nextDisabled == (currentIndex == totalSlides - 1))
    }

    ghost predicate Valid()
      reads this
    {
      && totalSlides > 0
      && 0 <= currentIndex < totalSlides
      && (!isLooping ==> FlagsMatchIndex())
    }

    /** The setup: the index starts at 0 and the initial updateCarousel runs.
        The disabled flags start from the attributes given in the page. */
    constructor (items: int, loop: bool, prevTrigger: bool, nextTrigger: bool,
                 prevDisabledAttr: bool, nextDisabledAttr: bool)
      requires items > 0
      ensures Valid()
      ensures totalSlides == items && isLooping == loop && hasPrev == prevTrigger && hasNext == nextTrigger
      ensures currentIndex == 0 && touchStartX == 0
      ensures loop ==> prevDisabled == prevDisabledAttr && nextDisabled == nextDisabledAttr
      ensures !loop && prevTrigger ==> prevDisabled
      ensures !loop && nextTrigger ==> nextDisabled == (items == 1)
    {
      totalSlides := items;
      isLooping := loop;
      hasPrev := prevTrigger;
      hasNext := nextTrigger;
      currentIndex := 0;
      prevDisabled := prevDisabledAttr;
      nextDisabled := nextDisabledAttr;
      touchStartX := 0;
      new;
      UpdateCarousel();
    }

    /** The disabled-attribute part of updateCarousel; the transform is not
        modelled. */
    method UpdateCarousel()
      requires totalSlides > 0 && 0 <= currentIndex < totalSlides
      modifies this`prevDisabled, this`nextDisabled
      ensures Valid()
      ensures isLooping ==> prevDisabled == old(prevDisabled) && nextDisabled == old(nextDisabled)
      ensures !isLooping && !hasPrev ==> prevDisabled == old(prevDisabled)
      ensures !isLooping && !hasNext ==> nextDisabled == old(nextDisabled)
    {
      if !isLooping {
        if hasPrev {
          prevDisabled := currentIndex == 0;
        }
        if hasNext {
          nextDisabled := currentIndex == totalSlides - 1;
        }
      }
    }

    /** goToSlide, called by its handlers with the index one step away. */
    method GoToSlide(index: int)
      requires Valid()
      requires currentIndex - 1 <= index <= currentIndex + 1
      modifies this`currentIndex, this`prevDisabled, this`nextDisabled
      ensures Valid()
      ensures currentIndex == SlideFor(isLooping, totalSlides, index)
      ensures isLooping ==> prevDisabled == old(prevDisabled) && nextDisabled == old(nextDisabled)
      ensures !isLooping && !hasPrev ==> prevDisabled == old(prevDisabled)
      ensures !isLooping && !hasNext ==> nextDisabled == old(nextDisabled)
    {
      StepInRange(isLooping, totalSlides, currentIndex, index);
      if isLooping {
        currentIndex := JsRem(index + totalSlides, totalSlides);
      } else {
        currentIndex := Clamp(index, totalSlides);
      }
      UpdateCarousel();
    }

    /** A click on the prev trigger. */
    method Prev()
      requires Valid()
      modifies this`currentIndex, this`prevDisabled, this`nextDisabled
      ensures Valid()
      ensures currentIndex == SlideFor(isLooping, totalSlides, old(currentIndex) - 1)
      ensures isLooping ==> prevDisabled == old(prevDisabled) && nextDisabled == old(nextDisabled)
      ensures !isLooping && !hasPrev ==> prevDisabled == old(prevDisabled)
      ensures !isLooping && !hasNext ==> nextDisabled == old(nextDisabled)
    {
      GoToSlide(currentIndex - 1);
    }

    /** A click on the next trigger. */
    method Next()
      requires Valid()
      modifies this`currentIndex, this`prevDisabled, this`nextDisabled
      ensures Valid()
      ensures currentIndex == SlideFor(isLooping, totalSlides, old(currentIndex) + 1)
      ensures isLooping ==> prevDisabled == old(prevDisabled) && nextDisabled == old(nextDisabled)
      ensures !isLooping && !hasPrev ==> prevDisabled == old(prevDisabled)
      ensures !isLooping && !hasNext ==> nextDisabled == old(nextDisabled)
    {
      GoToSlide(currentIndex + 1);
    }

    /** touchstart records where the finger went down. */
    method TouchStart(screenX: int)
      modifies this`touchStartX
      ensures touchStartX == screenX
    {
      touchStartX := screenX;
    }

    /** touchend: a swipe past the threshold acts as next (leftward) or prev
        (rightward); a shorter one changes nothing. */
    method TouchEnd(screenX: int)
      requires Valid()
      modifies this`currentIndex, this`prevDisabled, this`nextDisabled
      ensures Valid()
      ensures SwipeTarget(touchStartX, screenX, old(currentIndex)).None? ==>
        currentIndex == old(currentIndex) && prevDisabled == old(prevDisabled) && nextDisabled == old(nextDisabled)
      ensures SwipeTarget(touchStartX, screenX, old(currentIndex)).Some? ==>
        currentIndex == SlideFor(isLooping, totalSlides, SwipeTarget(touchStartX, screenX, old(currentIndex)).value)
      ensures isLooping ==> prevDisabled == old(prevDisabled) && nextDisabled == old(nextDisabled)
      ensures !isLooping && !hasPrev ==> prevDisabled == old(prevDisabled)
      ensures !isLooping && !hasNext ==> nextDisabled == old(nextDisabled)
    {
      var target := SwipeTarget(touchStartX, screenX, currentIndex);
      if target.Some? {
        GoToSlide(target.value);
      }
    }
  }

  /** The per-carousel setup: nothing happens without a slides container or
      without items; otherwise a carousel at slide 0. */
  method Setup(hasSlidesContainer: bool, items: nat, loop: bool, prevTrigger: bool, nextTrigger: bool,
               prevDisabledAttr: bool, nextDisabledAttr: bool)
    returns (c: Carousel?)
    ensures c == null <==> !hasSlidesContainer || items == 0
    ensures c != null ==> fresh(c) && c.Valid() && c.currentIndex == 0 && c.totalSlides == items
  {
    if !hasSlidesContainer || items == 0 {
      return null;
    }
    c := new Carousel(items, loop, prevTrigger, nextTrigger, prevDisabledAttr, nextDisabledAttr);
  }
}
