// The scroll-reveal hook: an element is marked in view when it scrolls into
// the viewport, once for good or every time, and the class names and stagger
// delays that follow from that mark.

module ScrollAnimation {
  import opened Text

  /** The hook's options with their defaults filled in. The threshold is kept as a ratio in thousandths. */
  datatype Options = Options(thresholdPermille: nat, rootMargin: string, triggerOnce: bool, delay: nat)

  const DefaultOptions := Options(100, "0px 0px -50px 0px", true, 0)
  const DefaultStaggerDelay: nat := 100

  datatype Animation = FadeUp | SlideLeft | SlideRight | ScaleUp | BlurIn

  const BaseClass := "animate-on-scroll"
  const InViewClass := "in-view"

  function AnimationName(a: Animation): (name: string)
    ensures name != "" && ' ' !in name
  {
    match a
    case FadeUp => "fade-up"
    case SlideLeft => "slide-left"
    case SlideRight => "slide-right"
    case ScaleUp => "scale-up"
    case BlurIn => "blur-in"
  }

  /**
   * The reveal state of one element. `observing` says whether the intersection observer
   * is connected; `pendingTimers` counts delayed reveals not yet fired (they are never
   * cancelled).
   */
  class ScrollReveal {
    const triggerOnce: bool
    const delay: nat
    var isInView: bool
    var hasAnimated: bool
    var observing: bool
    var pendingTimers: nat

    /** Shown only after a reveal; a one-shot observer is gone once the element has been revealed. */
    predicate Valid()
      reads this
    {
      && (isInView ==> hasAnimated)
      && (triggerOnce && hasAnimated ==> !observing)
      && (triggerOnce && pendingTimers > 0 ==> !observing)
    }

    /** Mounting with an element: not in view, and the observer connected. */
    constructor(options: Options)
      ensures Valid()
      ensures triggerOnce == options.triggerOnce && delay == options.delay
      ensures !isInView && !hasAnimated && observing && pendingTimers == 0
    {
      triggerOnce := options.triggerOnce;
      delay := options.delay;
      isInView := false;
      hasAnimated := false;
      observing := true;
      pendingTimers := 0;
    }

    /**
     * The observer reports whether the element intersects the viewport. Without a delay
     * an intersection reveals at once; with one it schedules the reveal. A one-shot
     * observer disconnects on its first intersection; otherwise leaving the viewport
     * hides the element again. A disconnected observer reports nothing.
     */
    method Intersect(isIntersecting: bool)
      requires Valid()
      modifies this
      ensures Valid()
      ensures !old(observing) ==>
        (isInView == old(isInView) && hasAnimated == old(hasAnimated)
         && observing == old(observing) && pendingTimers == old(pendingTimers))
      ensures old(observing) && isIntersecting && delay == 0 ==>
        (isInView && hasAnimated && pendingTimers == old(pendingTimers))
      ensures old(observing) && isIntersecting && delay > 0 ==>
        (isInView == old(isInView) && hasAnimated == old(hasAnimated)
         && pendingTimers == old(pendingTimers) + 1)
      ensures old(observing) ==> (observing <==> !(isIntersecting && triggerOnce))
      ensures old(observing) && !isIntersecting ==>
        (hasAnimated == old(hasAnimated) && pendingTimers == old(pendingTimers)
         && isInView == (if triggerOnce then old(isInView) else false))
      ensures triggerOnce && old(isInView) ==> isInView
    {
      if !observing {
        return;
      }
      if isIntersecting {
        if delay > 0 {
          pendingTimers := pendingTimers + 1;
        } else {
          isInView := true;
          hasAnimated := true;
        }
        if triggerOnce {
          observing := false;
        }
      } else if !triggerOnce {
        isInView := false;
      }
    }

    /** A scheduled reveal fires: the element is shown, whatever the observer reported since. */
    method TimerFires()
      requires Valid() && pendingTimers > 0
      modifies this
      ensures Valid()
      ensures isInView && hasAnimated && pendingTimers == old(pendingTimers) - 1
      ensures observing == old(observing)
    {
      isInView := true;
      hasAnimated := true;
      pendingTimers := pendingTimers - 1;
    }
  }

  /**
   * A one-shot reveal never hides again: whatever the observer reports, starting from a
   * revealed state the element stays in view.
   */
  method LatchHolds(element: ScrollReveal, reports: seq<bool>)
    requires element.Valid() && element.triggerOnce && element.isInView
    modifies element
    ensures element.Valid() && element.isInView
  {
    var i := 0;
    while i < |reports|
      invariant element.Valid() && element.isInView
    {
      element.Intersect(reports[i]);
      i := i + 1;
    }
  }

  /** `getStaggerStyle(index)`: the transition delay for the child at `index`. */
  function StaggerDelay(isInView: bool, index: int, staggerDelay: int): (r: string)
    ensures !isInView ==> r == "0ms"
    ensures |r| > 2 && r[|r| - 2..] == "ms"
  {
    if isInView then IntToString(index * staggerDelay) + "ms" else "0ms"
  }

  /** In view, the delay read back is the child's index times the step, so later children wait longer. */
  lemma StaggerReadsBack(index: nat, staggerDelay: nat)
    ensures var r := StaggerDelay(true, index, staggerDelay);
      ParseDigits(r[..|r| - 2]) == index * staggerDelay
  {
    var r := StaggerDelay(true, index, staggerDelay);
    assert r[..|r| - 2] == NatToString(index * staggerDelay);
    ParseNatToString(index * staggerDelay);
  }

  /**
   * `useAnimationClasses`: the base class, then the animation's own class unless it is the
   * default fade-up, then the in-view class when in view, separated by single spaces.
   */
  function AnimationClasses(isInView: bool, animation: Animation): (r: string)
    ensures r == BaseClass + (if animation != FadeUp then " " + AnimationName(animation) else "")
                           + (if isInView then " " + InViewClass else "")
  {
    var name := if animation != FadeUp then AnimationName(animation) else "";
    var view := if isInView then InViewClass else "";
    assert JoinWords([view]) == view by {
      assert [view][1..] == [];
    }
    assert JoinWords([name, view]) == (if name == "" then view else if view == "" then name else name + " " + view) by {
      assert [name, view][1..] == [view];
    }
    assert [BaseClass, name, view][1..] == [name, view];
    JoinWords([BaseClass, name, view])
  }

  /** Splitting the class list on spaces gives back exactly the classes that apply, in order. */
  lemma ClassesSplitBack(isInView: bool, animation: Animation)
    ensures Split(AnimationClasses(isInView, animation), ' ')
         == [BaseClass] + (if animation != FadeUp then [AnimationName(animation)] else [])
                        + (if isInView then [InViewClass] else [])
  {
    var r := AnimationClasses(isInView, animation);
    var name := AnimationName(animation);
    assert ' ' !in BaseClass && ' ' !in InViewClass;
    if animation != FadeUp && isInView {
      assert r == BaseClass + [' '] + (name + " " + InViewClass);
      SplitFirstLine(BaseClass, ' ', name + " " + InViewClass);
      SplitAround(name, InViewClass, ' ');
    } else if animation != FadeUp {
      assert r == BaseClass + " " + name;
      SplitAround(BaseClass, name, ' ');
    } else if isInView {
      assert r == BaseClass + " " + InViewClass;
      SplitAround(BaseClass, InViewClass, ' ');
    } else {
      assert r == BaseClass;
      SplitNoSeparator(BaseClass, ' ');
    }
  }
}
