/** The home-page carousel (src/components/shop/HeroSlider.tsx): the current slide index. */
module HeroSlider {
  import opened Wrappers
  import opened JsNumbers
  import opened Database

  /** `(prev + 1) % sliders.length`: the following slide, wrapping from the last to the first. */
  function Next(i: int, n: int): (r: int)
    requires i >= 0 && n > 0
    ensures 0 <= r < n
    ensures i < n ==> r == if i == n - 1 then 0 else i + 1
  {
    JsRem(i + 1, n)
  }

  /** `(prev - 1 + sliders.length) % sliders.length`: the preceding slide, wrapping from the first to the last. */
  function Prev(i: int, n: int): (r: int)
    requires i >= 0 && n > 0
    ensures 0 <= r < n
    ensures i < n ==> r == if i == 0 then n - 1 else i - 1
  {
    JsRem(i - 1 + n, n)
  }

  /** The two arrows undo each other. */
  lemma PrevNextInverse(i: int, n: int)
    requires 0 <= i < n
    ensures Prev(Next(i, n), n) == i
    ensures Next(Prev(i, n), n) == i
  {
  }

  /** The index after `k` steps of `Next`, as the interval produces it. */
  function Advance(i: int, n: int, k: nat): (r: int)
    requires i >= 0 && n > 0
    ensures r >= 0
    decreases k
  {
    if k == 0 then i else Next(Advance(i, n, k - 1), n)
  }

  /** `k` steps from `i` land on `(i + k) mod n`. */
  lemma {:induction false} AdvanceMod(i: int, n: int, k: nat)
    requires 0 <= i < n
    ensures Advance(i, n, k) == (i + k) % n
    decreases k
  {
    if k > 0 {
      AdvanceMod(i, n, k - 1);
      ModSucc(i + k - 1, n);
    }
  }

  lemma ModSucc(a: nat, n: int)
    requires n > 0
    ensures (a + 1) % n == if a % n == n - 1 then 0 else a % n + 1
  {
    var q, m := a / n, a % n;
    if m == n - 1 {
      ModUnique(a + 1, n, q + 1, 0);
    } else {
      ModUnique(a + 1, n, q, m + 1);
    }
  }

  /** `n` steps of the interval return to the starting slide. */
  lemma FullCycle(i: int, n: int)
    requires 0 <= i < n
    ensures Advance(i, n, n) == i
  {
    AdvanceMod(i, n, n);
    assert i + n == 1 * n + i;
  }

  /** The interval is installed, and the arrows and dots are drawn, only with more than one slide. */
  predicate HasControls(n: int) {
    n > 1
  }

  datatype View =
    | Spinner
    | Welcome
    | Carousel(slide: Slider, arrows: bool, dots: seq<int>)

  /** The carousel: a spinner while loading, a welcome banner without slides, else the current slide. */
  function SliderView(isLoading: bool, sliders: seq<Slider>, current: int): (v: View)
    requires 0 <= current && (current == 0 || current < |sliders|)
    ensures v.Spinner? <==> isLoading
    ensures v.Welcome? <==> !isLoading && sliders == []
    ensures v.Carousel? ==>
      && v.slide == sliders[current]
      && (v.arrows <==> HasControls(|sliders|))
      && (HasControls(|sliders|) ==> |v.dots| == |sliders| && forall k :: 0 <= k < |v.dots| ==> v.dots[k] == k)
      && (!HasControls(|sliders|) ==> v.dots == [])
  {
    if isLoading then Spinner
    else if sliders == [] then Welcome
    else Carousel(sliders[current], |sliders| > 1, if |sliders| > 1 then seq(|sliders|, k => k) else [])
  }

  /** The slider's state: `currentSlide`, against the number `n` of slides the store holds. */
  class Slides {
    var currentSlide: int

    /** The index is a slide of the list, or the initial 0 that the list may not have yet. */
    ghost predicate Valid(n: int)
      reads this
    {
      0 <= currentSlide && (currentSlide == 0 || currentSlide < n)
    }

    constructor ()
      ensures currentSlide == 0
      ensures forall n :: Valid(n)
    {
      currentSlide := 0;
    }

    method NextSlide(n: int)
      requires HasControls(n) && Valid(n)
      modifies this
      ensures currentSlide == Next(old(currentSlide), n) && Valid(n)
    {
      currentSlide := JsRem(currentSlide + 1, n);
    }

    method PrevSlide(n: int)
      requires HasControls(n) && Valid(n)
      modifies this
      ensures currentSlide == Prev(old(currentSlide), n) && Valid(n)
    {
      currentSlide := JsRem(currentSlide - 1 + n, n);
    }

    /** One tick of the auto-advance interval: the same step as the next arrow. */
    method Tick(n: int)
      requires HasControls(n) && Valid(n)
      modifies this
      ensures currentSlide == Next(old(currentSlide), n) && Valid(n)
    {
      currentSlide := JsRem(currentSlide + 1, n);
    }

    /** Clicking dot `k`. */
    method GoToSlide(n: int, k: int)
      requires HasControls(n) && 0 <= k < n
      modifies this
      ensures currentSlide == k && Valid(n)
    {
      currentSlide := k;
    }
  }
}
