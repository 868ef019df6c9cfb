/** The landing page's looping slideshow. The N original slides are padded to
    N + 2: a copy of the last slide in front and a copy of the first at the
    end, so that moving past either end shows the right picture before the
    index is silently snapped back to the real slide. The state is the index
    into the padded sequence and whether moves are animated. */
module Carousel {

  /** Width of one slide and the gap after it, in percent of the container. */
  const SlideWidthPercentage: int := 70
  const GapPercentage: int := 5

  // ---------------------------------------------------------------------------
  // The padded sequence

  function LoopedSlides<S>(originalSlides: seq<S>): (r: seq<S>)
    requires |originalSlides| >= 1
    ensures |r| == |originalSlides| + 2
    ensures r[0] == originalSlides[|originalSlides| - 1]
    ensures r[|originalSlides| + 1] == originalSlides[0]
    ensures r[1..|originalSlides| + 1] == originalSlides
  {
    [originalSlides[|originalSlides| - 1]] + originalSlides + [originalSlides[0]]
  }

  /** The real slide a position of the padded sequence stands for: position i
      shows original slide i - 1, taken around the circle. */
  function RealSlide(index: int, n: int): (k: int)
    requires n >= 1
    ensures 0 <= k < n
    ensures 1 <= index <= n ==> k == index - 1
    ensures index == 0 ==> k == n - 1
    ensures index == n + 1 ==> k == 0
  {
    (index - 1) % n
  }

  /** Every position of the padded sequence, phantom or real, shows the
      original slide it stands for. */
  lemma LoopedSlideIsRealSlide<S>(originalSlides: seq<S>, index: int)
    requires |originalSlides| >= 1 && 0 <= index < |originalSlides| + 2
    ensures LoopedSlides(originalSlides)[index] == originalSlides[RealSlide(index, |originalSlides|)]
  {
    var n := |originalSlides|;
    var looped := LoopedSlides(originalSlides);
    if 1 <= index <= n {
      assert looped[index] == looped[1..n + 1][index - 1];
    }
  }

  // ---------------------------------------------------------------------------
  // Indicators and offset

  /** Dot k is highlighted: the index is on slide k, or on the phantom copy of
      slide k at either end. */
  predicate IsDotActive(index: int, n: int, k: int)
    ensures IsDotActive(index, n, k) && n >= 1 && 0 <= k < n ==> 0 <= index <= n + 1
    ensures IsDotActive(index, n, k) && n >= 1 && 1 <= index <= n ==> k == index - 1
  {
    k + 1 == index || (index == 0 && k == n - 1) || (index == n + 1 && k == 0)
  }

  /** From any position of the padded sequence exactly one dot is highlighted,
      and it is the dot of the slide shown there. */
  lemma ExactlyOneDotActive(index: int, n: int, k: int)
    requires n >= 1 && 0 <= index <= n + 1 && 0 <= k < n
    ensures IsDotActive(index, n, k) <==> k == RealSlide(index, n)
  {
  }

  /** Past the padded sequence no dot is highlighted. */
  lemma NoDotActiveOutside(index: int, n: int, k: int)
    requires n >= 1 && (index < 0 || index > n + 1) && 0 <= k < n
    ensures !IsDotActive(index, n, k)
  {
  }

  /** The horizontal translation of the strip, in percent of the container. */
  function TranslatePercent(index: int): (offset: int)
    ensures offset == 15 - 75 * index
  {
    -(index * (SlideWidthPercentage + GapPercentage)) + (50 - SlideWidthPercentage / 2)
  }

  /** Moving to a higher index moves the strip further left. */
  lemma TranslateStrictlyDecreasing(i: int, j: int)
    requires i < j
    ensures TranslatePercent(j) < TranslatePercent(i)
  {
  }

  /** The slide at `index` is centred: its left edge, after translation, lies
      as far from the container's left edge as its right edge from the right. */
  lemma TranslateCentresSlide(index: int)
    ensures var left := index * (SlideWidthPercentage + GapPercentage) + TranslatePercent(index);
            left == 100 - (left + SlideWidthPercentage)
  {
  }

  // ---------------------------------------------------------------------------
  // The state machine

  datatype View = View(index: int, transitionEnabled: bool)

  /** What the handlers react to. */
  datatype Event =
    | NextClicked              // the right arrow
    | PrevClicked              // the left arrow
    | DotClicked(k: int)       // indicator k
    | TransitionEnded          // a `transitionend` reaching the strip: its own, or one
                               // bubbling up from a slide's hover overlay
    | Reenabled                // the timer armed after a snap fired

  const InitialView: View := View(1, true)

  /** One handler run on `n` original slides. */
  function Step(v: View, e: Event, n: int): (w: View)
    ensures e.NextClicked? ==> w == v.(index := v.index + 1)
    ensures e.PrevClicked? ==> w == v.(index := v.index - 1)
    ensures e.DotClicked? ==> w == v.(index := e.k + 1)
    ensures e.TransitionEnded? && v.index == n + 1 ==> w == View(1, false)
    ensures e.TransitionEnded? && v.index == 0 && n != -1 ==> w == View(n, false)
    ensures e.TransitionEnded? && v.index != 0 && v.index != n + 1 ==> w == v
    ensures e.TransitionEnded? && n >= 1 && 0 <= v.index <= n + 1 ==> 1 <= w.index <= n
    ensures e.Reenabled? ==> w == v.(transitionEnabled := true)
  {
    match e
    case NextClicked => v.(index := v.index + 1)
    case PrevClicked => v.(index := v.index - 1)
    case DotClicked(k) => v.(index := k + 1)
    case TransitionEnded =>
      if v.index == n + 1 then View(1, false)
      else if v.index == 0 then View(n, false)
      else v
    case Reenabled => if !v.transitionEnabled then v.(transitionEnabled := true) else v
  }

  /** The snap at the end of a transition is invisible: the padded sequence
      shows the same slide before and after, and the same dot is lit. */
  lemma SnapShowsSameSlide<S>(originalSlides: seq<S>, v: View, k: int)
    requires |originalSlides| >= 1 && 0 <= v.index <= |originalSlides| + 1 && 0 <= k < |originalSlides|
    ensures var w := Step(v, TransitionEnded, |originalSlides|);
            && LoopedSlides(originalSlides)[w.index] == LoopedSlides(originalSlides)[v.index]
            && (IsDotActive(w.index, |originalSlides|, k) <==> IsDotActive(v.index, |originalSlides|, k))
  {
    var w := Step(v, TransitionEnded, |originalSlides|);
    LoopedSlideIsRealSlide(originalSlides, v.index);
    LoopedSlideIsRealSlide(originalSlides, w.index);
    ExactlyOneDotActive(v.index, |originalSlides|, k);
    ExactlyOneDotActive(w.index, |originalSlides|, k);
  }

  /** A user move whose transition runs to its end, after which the snap
      timer, if armed, fires. */
  function Gesture(v: View, move: Event, n: int): (w: View)
  {
    Step(Step(Step(v, move, n), TransitionEnded, n), Reenabled, n)
  }

  /** A click the page can produce: either arrow, or one of the `n` dots. */
  predicate IsUserMove(e: Event, n: int)
  {
    e.NextClicked? || e.PrevClicked? || (e.DotClicked? && 0 <= e.k < n)
  }

  /** The view after `moves`, each played as a Gesture. */
  function Play(v: View, moves: seq<Event>, n: int): (w: View)
    decreases |moves|
  {
    if moves == [] then v else Play(Gesture(v, moves[0], n), moves[1..], n)
  }

  /** As long as every move is allowed to finish its transition, the carousel
      comes to rest on a real slide with animation on. */
  lemma {:induction false} SettledMovesStayOnRealSlides(v: View, moves: seq<Event>, n: int)
    requires n >= 1 && 1 <= v.index <= n && v.transitionEnabled
    requires forall i :: 0 <= i < |moves| ==> IsUserMove(moves[i], n)
    ensures var w := Play(v, moves, n); 1 <= w.index <= n && w.transitionEnabled
    decreases |moves|
  {
    if moves != [] {
      SettledMovesStayOnRealSlides(Gesture(v, moves[0], n), moves[1..], n);
    }
  }

  /** Nothing keeps the index inside the padded sequence: two clicks on the
      right arrow from the last slide before the first transition ends reach
      N + 2, where the transition end does not snap and no dot is lit. */
  lemma DoubleNextEscapesLoop(n: int, k: int)
    requires n >= 1 && 0 <= k < n
    ensures var w := Step(Step(Step(View(n, true), NextClicked, n), NextClicked, n), TransitionEnded, n);
            w == View(n + 2, true) && !IsDotActive(w.index, n, k)
  {
  }

  // ---------------------------------------------------------------------------
  // The component's state

  class Slideshow<S> {
    const originalSlides: seq<S>
    var currentSlideIndex: int
    var transitionEnabled: bool

    function CurrentView(): (v: View)
      reads this
    {
      View(currentSlideIndex, transitionEnabled)
    }

    constructor (slides: seq<S>)
      requires |slides| >= 1
      ensures originalSlides == slides
      ensures CurrentView() == InitialView
    {
      originalSlides := slides;
      currentSlideIndex := 1;
      transitionEnabled := true;
    }

    method NextSlide()
      modifies this
      ensures currentSlideIndex == old(currentSlideIndex) + 1
      ensures transitionEnabled == old(transitionEnabled)
      ensures CurrentView() == Step(old(CurrentView()), NextClicked, |originalSlides|)
    {
      currentSlideIndex := currentSlideIndex + 1;
    }

    method PrevSlide()
      modifies this
      ensures currentSlideIndex == old(currentSlideIndex) - 1
      ensures transitionEnabled == old(transitionEnabled)
      ensures CurrentView() == Step(old(CurrentView()), PrevClicked, |originalSlides|)
    {
      currentSlideIndex := currentSlideIndex - 1;
    }

    /** The handler of indicator `k`; indicators exist for the original slides only. */
    method ClickDot(k: int)
      requires 0 <= k < |originalSlides|
      modifies this
      ensures currentSlideIndex == k + 1
      ensures transitionEnabled == old(transitionEnabled)
      ensures CurrentView() == Step(old(CurrentView()), DotClicked(k), |originalSlides|)
    {
      currentSlideIndex := k + 1;
    }

    method HandleTransitionEnd()
      requires |originalSlides| >= 1
      modifies this
      ensures old(currentSlideIndex) == |originalSlides| + 1 ==> currentSlideIndex == 1 && !transitionEnabled
      ensures old(currentSlideIndex) == 0 ==> currentSlideIndex == |originalSlides| && !transitionEnabled
      ensures old(currentSlideIndex) != 0 && old(currentSlideIndex) != |originalSlides| + 1 ==>
                CurrentView() == old(CurrentView())
      ensures CurrentView() == Step(old(CurrentView()), TransitionEnded, |originalSlides|)
    {
      var loopedSlides := LoopedSlides(originalSlides);
      if currentSlideIndex == |loopedSlides| - 1 {
        transitionEnabled := false;
        currentSlideIndex := 1;
      } else if currentSlideIndex == 0 {
        transitionEnabled := false;
        currentSlideIndex := |originalSlides|;
      }
    }

    /** The effect that turns animation back on once a snap has disabled it. */
    method ReenableTransition()
      modifies this
      ensures transitionEnabled
      ensures currentSlideIndex == old(currentSlideIndex)
      ensures CurrentView() == Step(old(CurrentView()), Reenabled, |originalSlides|)
    {
      if !transitionEnabled {
        transitionEnabled := true;
      }
    }
  }
}
