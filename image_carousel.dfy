/**
 * The slide index of the image carousel (src/components/ImageCarousel.tsx).
 * `nextSlide` and `prevSlide` are pure updaters of the `currentIndex` state;
 * `images.length` is read when they run, and the images are a prop that the
 * page replaces once its fetch succeeds, so the count can change under an
 * index that was computed for another count.
 */
module ImageCarousel {

  /**
   * A JavaScript number as the index can hold it: an integer, or NaN, which
   * `% 0` produces when there are no images.
   */
  datatype SlideIndex = At(i: int) | NotANumber

  /** JavaScript's `a % n`: the remainder truncated toward zero, NaN for a zero divisor. */
  function JsRem(a: int, n: int): (r: SlideIndex)
    ensures n == 0 <==> r.NotANumber?
    ensures n != 0 && a >= 0 ==> r == At(a % n)
  {
    if n == 0 then NotANumber
    else if a >= 0 then At(a % if n < 0 then -n else n)
    else At(-((-a) % if n < 0 then -n else n))
  }

  /**
   * nextSlide's updater: `prevIndex === images.length - 1 ? 0 : prevIndex + 1`.
   * With images, an index in range steps forward cyclically and stays in
   * range; an index at or beyond the count only grows; NaN stays NaN.
   */
  function Next(index: SlideIndex, n: nat): (r: SlideIndex)
    ensures r.NotANumber? <==> index.NotANumber?
    ensures InRange(index, n) ==> r == At((index.i + 1) % n) && InRange(r, n)
    ensures index.At? && index.i >= n ==> r == At(index.i + 1)
  {
    match index
    case At(i) => if i == n - 1 then At(0) else At(i + 1)
    case NotANumber => NotANumber
  }

  /**
   * prevSlide's updater: `(prevIndex - 1 + images.length) % images.length`.
   * With images, an index in range steps back cyclically and stays in range;
   * with no images the index becomes NaN.
   */
  function Prev(index: SlideIndex, n: nat): (r: SlideIndex)
    ensures n == 0 || index.NotANumber? ==> r.NotANumber?
    ensures InRange(index, n) ==> r == At((index.i - 1 + n) % n) && InRange(r, n)
    ensures n > 0 && index.At? && index.i >= n ==> r == At((index.i - 1 + n) % n) && InRange(r, n)
  {
    match index
    case At(i) => JsRem(i - 1 + n, n)
    case NotANumber => NotANumber
  }

  predicate InRange(index: SlideIndex, n: nat)
  {
    index.At? && 0 <= index.i < n
  }

  /** A positive multiple of n is at least n. */
  lemma {:induction false} MultipleAtLeast(d: int, n: int)
    requires d >= 1 && n > 0
    ensures d * n >= n
  {
    if d > 1 {
      MultipleAtLeast(d - 1, n);
      assert d * n == (d - 1) * n + n;
    }
  }

  /** The remainder is the unique s in [0, n) with x = q * n + s. */
  lemma ModUnique(x: int, q: int, s: int, n: int)
    requires n > 0 && 0 <= s < n && x == q * n + s
    ensures x % n == s
  {
    var q0, s0 := x / n, x % n;
    assert x == q0 * n + s0;
    assert (q - q0) * n == s0 - s;
    if q > q0 {
      MultipleAtLeast(q - q0, n);
    } else if q < q0 {
      MultipleAtLeast(q0 - q, n);
    }
  }

  /** nextSlide and prevSlide undo each other on an index in range, in either order. */
  lemma NextPrevInverse(i: int, n: nat)
    requires 0 <= i < n
    ensures Prev(Next(At(i), n), n) == At(i)
    ensures Next(Prev(At(i), n), n) == At(i)
  {
    if i == n - 1 {
      ModUnique(n - 1, 0, n - 1, n);
    } else {
      ModUnique(i + n, 1, i, n);
    }
    if i == 0 {
      ModUnique(n - 1, 0, n - 1, n);
    } else {
      ModUnique(i - 1 + n, 1, i - 1, n);
    }
  }

  /** k applications of nextSlide. */
  function NextN(index: SlideIndex, n: nat, k: nat): SlideIndex
  {
    if k == 0 then index else Next(NextN(index, n, k - 1), n)
  }

  /** One step forward from the slide a lands on lands on the slide of a + 1. */
  lemma NextOfRemainder(a: nat, n: nat)
    requires n > 0
    ensures Next(At(a % n), n) == At((a + 1) % n)
  {
    var q, r := a / n, a % n;
    if r == n - 1 {
      ModUnique(a + 1, q + 1, 0, n);
    } else {
      ModUnique(a + 1, q, r + 1, n);
    }
  }

  /** From an index in range, k steps forward land k places further round the cycle. */
  lemma {:induction false} NextNCyclic(i: int, n: nat, k: nat)
    requires 0 <= i < n
    ensures NextN(At(i), n, k) == At((i + k) % n)
  {
    if k == 0 {
      ModUnique(i, 0, i, n);
    } else {
      NextNCyclic(i, n, k - 1);
      NextOfRemainder(i + k - 1, n);
    }
  }

  /** n steps forward return to the starting slide. */
  lemma NextNFullTurn(i: int, n: nat)
    requires 0 <= i < n
    ensures NextN(At(i), n, n) == At(i)
  {
    NextNCyclic(i, n, n);
    ModUnique(i + n, 1, i, n);
  }

  /**
   * An index at or beyond the count is never brought back by nextSlide: it
   * never equals `images.length - 1`, so every step only adds one. With no
   * images at all (the page's initial state) index 0 becomes 1, then 2, and so on.
   */
  lemma {:induction false} NextNBeyond(i: int, n: nat, k: nat)
    requires i >= n
    ensures NextN(At(i), n, k) == At(i + k)
  {
    if k > 0 {
      NextNBeyond(i, n, k - 1);
    }
  }

  /** With no images, nextSlide from 0 yields 1 and prevSlide yields NaN. */
  lemma EmptyCarousel()
    ensures Next(At(0), 0) == At(1)
    ensures Prev(At(0), 0) == NotANumber
    ensures forall index :: Next(Prev(index, 0), 0) == NotANumber
  {
  }

  /**
   * The carousel's state: the index, the length of the images prop it was
   * last rendered with, and the length the running timer reads. The timer
   * effect depends on `[currentIndex]` only (src/components/ImageCarousel.tsx
   * lines 24-27), so its `nextSlide` closure keeps the images of the render in
   * which the index last changed; the arrow buttons get a fresh closure on
   * every render.
   */
  class Carousel {
    var imageCount: nat
    var timerCount: nat
    var currentIndex: SlideIndex

    /** useState(0); the timer starts with the first render's images. */
    constructor (n: nat)
      ensures imageCount == n && timerCount == n
      ensures currentIndex == At(0)
    {
      imageCount := n;
      timerCount := n;
      currentIndex := At(0);
    }

    /** A re-render with another images prop; the index and the timer are kept as they are. */
    method SetImages(n: nat)
      modifies this
      ensures imageCount == n
      ensures currentIndex == old(currentIndex) && timerCount == old(timerCount)
    {
      imageCount := n;
    }

    /** A change of index re-renders and restarts the timer with the current images. */
    method Restart(previous: SlideIndex)
      modifies this
      ensures currentIndex == old(currentIndex) && imageCount == old(imageCount)
      ensures timerCount == if currentIndex == previous then old(timerCount) else imageCount
    {
      if currentIndex != previous {
        timerCount := imageCount;
      }
    }

    /** The next arrow: nextSlide with the images of the latest render. */
    method NextSlide()
      modifies this
      ensures currentIndex == Next(old(currentIndex), imageCount)
      ensures imageCount == old(imageCount)
      ensures timerCount == if currentIndex == old(currentIndex) then old(timerCount) else imageCount
      ensures InRange(old(currentIndex), imageCount) ==> InRange(currentIndex, imageCount)
    {
      var previous := currentIndex;
      currentIndex := Next(currentIndex, imageCount);
      Restart(previous);
    }

    /** The previous arrow: prevSlide with the images of the latest render. */
    method PrevSlide()
      modifies this
      ensures currentIndex == Prev(old(currentIndex), imageCount)
      ensures imageCount == old(imageCount)
      ensures timerCount == if currentIndex == old(currentIndex) then old(timerCount) else imageCount
      ensures InRange(old(currentIndex), imageCount) ==> InRange(currentIndex, imageCount)
    {
      var previous := currentIndex;
      currentIndex := Prev(currentIndex, imageCount);
      Restart(previous);
    }

    /**
     * A tick of the 5-second timer: nextSlide with the images the timer's
     * closure captured, which may be those of an earlier render.
     */
    method Tick()
      modifies this
      ensures currentIndex == Next(old(currentIndex), old(timerCount))
      ensures imageCount == old(imageCount)
      ensures timerCount == if currentIndex == old(currentIndex) then old(timerCount) else imageCount
      ensures InRange(old(currentIndex), imageCount) && old(timerCount) == imageCount ==>
        InRange(currentIndex, imageCount)
    {
      var previous := currentIndex;
      currentIndex := Next(currentIndex, timerCount);
      Restart(previous);
    }
  }

  /**
   * The page mounts the carousel with no images. When a one-image list
   * arrives before the first tick, the timer still counts zero images, so it
   * moves the index to 1, out of range, and from there it only grows.
   */
  method StaleTimerStep() returns (index: SlideIndex, later: SlideIndex)
    ensures index == At(1) && !InRange(index, 1)
    ensures later == At(2) && !InRange(later, 1)
  {
    var c := new Carousel(0);
    c.SetImages(1);
    c.Tick();
    index := c.currentIndex;
    c.Tick();
    later := c.currentIndex;
  }
}
