/**
  The home page hero (src/components/sections/HeroSection.tsx): the phrase rotator
  driven by a 3000 ms interval, the load timeline (targets, element counts, start and
  end values, positions, durations and staggers), and the end values and positions of
  the scroll-out timeline.
 */
module HeroSection {
  import opened Wrappers

  const RotatingPhrases: seq<string> := [
    "move money",
    "build payments",
    "scale faster",
    "integrate APIs",
    "grow business"
  ]

  /** `(prev + 1) % rotatingPhrases.length`. */
  function NextPhraseIndex(i: nat): (j: nat)
    requires i < |RotatingPhrases|
    ensures j < |RotatingPhrases|
    ensures j == 0 <==> i == |RotatingPhrases| - 1
    ensures j != 0 ==> j == i + 1
  {
    (i + 1) % |RotatingPhrases|
  }

  /** The index after `k` completed cycles starting from `i`. */
  function AfterCycles(i: nat, k: nat): (j: nat)
    requires i < |RotatingPhrases|
    ensures j < |RotatingPhrases|
  {
    if k == 0 then i else NextPhraseIndex(AfterCycles(i, k - 1))
  }

  /** Cycling is round-robin: after `k` cycles the index has moved `k` places, wrapping at the end of the list. */
  lemma {:induction false} AfterCyclesRoundRobin(i: nat, k: nat)
    requires i < |RotatingPhrases|
    ensures AfterCycles(i, k) == (i + k) % |RotatingPhrases|
  {
    if k > 0 {
      AfterCyclesRoundRobin(i, k - 1);
    }
  }

  /** Five cycles bring back the starting phrase, and the five cycles before that show five different phrases. */
  lemma FullRotation(i: nat)
    requires i < |RotatingPhrases|
    ensures AfterCycles(i, |RotatingPhrases|) == i
    ensures forall k1, k2 :: 0 <= k1 < k2 < |RotatingPhrases| ==> AfterCycles(i, k1) != AfterCycles(i, k2)
  {
    AfterCyclesRoundRobin(i, |RotatingPhrases|);
    forall k1, k2 | 0 <= k1 < k2 < |RotatingPhrases|
      ensures AfterCycles(i, k1) != AfterCycles(i, k2)
    {
      AfterCyclesRoundRobin(i, k1);
      AfterCyclesRoundRobin(i, k2);
    }
  }

  /**
    The rotator's state. `index` is `currentPhraseIndex`; `intervalActive` is the
    `setInterval` handle not yet cleared; `pendingFadeOuts` counts fade-out tweens
    started by the interval whose `onComplete` has not yet run.
   */
  class PhraseRotator {
    var index: nat
    var mounted: bool
    var intervalActive: bool
    var pendingFadeOuts: nat

    ghost predicate Valid()
      reads this
    {
      index < |RotatingPhrases| && (intervalActive <==> mounted)
    }

    /** The phrase on screen: `rotatingPhrases[currentPhraseIndex]`. */
    function Displayed(): string
      reads this
      requires Valid()
    {
      RotatingPhrases[index]
    }

    /** Mounting: index 0 and the interval started. */
    constructor ()
      ensures Valid() && index == 0 && mounted && intervalActive && pendingFadeOuts == 0
      ensures Displayed() == "move money"
    {
      index := 0;
      mounted := true;
      intervalActive := true;
      pendingFadeOuts := 0;
    }

    /** The interval fires: a fade-out starts only if the text element exists; the index does not change here. */
    method IntervalFires(textPresent: bool)
      requires Valid()
      modifies this`pendingFadeOuts
      ensures Valid() && index == old(index)
      ensures pendingFadeOuts == if intervalActive && textPresent then old(pendingFadeOuts) + 1 else old(pendingFadeOuts)
    {
      if intervalActive && textPresent {
        pendingFadeOuts := pendingFadeOuts + 1;
      }
    }

    /**
      A fade-out completes: the index advances to the next phrase. After unmounting,
      the state update is ignored.
     */
    method FadeOutCompletes()
      requires Valid() && pendingFadeOuts > 0
      modifies this`index, this`pendingFadeOuts
      ensures Valid() && pendingFadeOuts == old(pendingFadeOuts) - 1
      ensures index == if mounted then NextPhraseIndex(old(index)) else old(index)
    {
      pendingFadeOuts := pendingFadeOuts - 1;
      if mounted {
        index := NextPhraseIndex(index);
      }
    }

    /** Unmounting clears the interval; a fade-out already running is not cancelled. */
    method Unmount()
      requires Valid()
      modifies this`mounted, this`intervalActive
      ensures Valid() && !mounted && !intervalActive
    {
      mounted := false;
      intervalActive := false;
    }
  }

  /** After unmounting, no interval tick and no completing fade-out changes the phrase. */
  method UnmountedRotatorIsFrozen(r: PhraseRotator, textPresent: bool)
    requires r.Valid() && !r.mounted && r.pendingFadeOuts > 0
    modifies r
    ensures r.index == old(r.index)
  {
    r.IntervalFires(textPresent);
    r.FadeOutCompletes();
  }

  datatype HeroTarget = Background | Headline | Subheadline | CallsToAction | Card | CardText

  /** Tween values for a hero element: vertical offset and scale when given, and opacity. */
  datatype HeroVars = HeroVars(y: Option<real>, scale: Option<real>, opacity: real)

  /**
    One `fromTo` of the load timeline: its target; how many elements it animates; start
    and end values; start position and duration in seconds; stagger between elements.
   */
  datatype LoadTween = LoadTween(
    target: HeroTarget,
    elements: nat,
    from: HeroVars,
    to: HeroVars,
    position: real,
    duration: real,
    stagger: real)

  /**
    The load timeline, in call order. The background tween is given no position, so it
    is placed at the end of the still-empty timeline, which is time 0. Two tweens target
    `.children` of a wrapper: the headline wrapper holds one element (the `h1`), and the
    card text wrapper holds two (the block of three rows and the decorative line).
   */
  const LoadTimeline: seq<LoadTween> := [
    LoadTween(Background, 1, HeroVars(None, Some(1.1), 0.0), HeroVars(None, Some(1.0), 1.0), 0.0, 1.2, 0.0),
    LoadTween(Headline, 1, HeroVars(Some(50.0), None, 0.0), HeroVars(Some(0.0), None, 1.0), 0.3, 0.8, 0.1),
    LoadTween(Subheadline, 1, HeroVars(Some(30.0), None, 0.0), HeroVars(Some(0.0), None, 1.0), 0.5, 0.6, 0.0),
    LoadTween(CallsToAction, 1, HeroVars(Some(30.0), None, 0.0), HeroVars(Some(0.0), None, 1.0), 0.6, 0.6, 0.0),
    LoadTween(Card, 1, HeroVars(Some(100.0), Some(0.9), 0.0), HeroVars(Some(0.0), Some(1.0), 1.0), 0.4, 1.0, 0.0),
    LoadTween(CardText, 2, HeroVars(Some(30.0), None, 0.0), HeroVars(Some(0.0), None, 1.0), 0.8, 0.6, 0.15)
  ]

  /** When the `k`-th element of a staggered tween starts. */
  function ChildStart(t: LoadTween, k: nat): (start: real)
    requires k < t.elements
    ensures t.stagger >= 0.0 ==> start >= t.position
  {
    t.position + k as real * t.stagger
  }

  /** When the `k`-th element of a tween finishes. */
  function ChildEnd(t: LoadTween, k: nat): (end: real)
    requires k < t.elements
    ensures t.duration >= 0.0 ==> end >= ChildStart(t, k)
  {
    ChildStart(t, k) + t.duration
  }

  /**
    Every element starts once: background first, then headline, card, subheadline,
    calls to action and card text, in that order. Only the card text's stagger has more
    than one element to spread out; the headline's stagger acts on its single child.
   */
  lemma LoadTimelineOrder()
    ensures var tl := LoadTimeline;
      && |tl| == 6
      && (forall i, j :: 0 <= i < j < |tl| ==> tl[i].target != tl[j].target)
      && tl[0].position < tl[1].position < tl[4].position < tl[2].position < tl[3].position < tl[5].position
      && (forall i :: 0 <= i < |tl| ==> (tl[i].elements > 1 <==> tl[i].target == CardText))
      && tl[1].stagger > 0.0 && tl[1].elements == 1
  {
  }

  /**
    The load animation brings every element to rest, fully visible: each starts invisible
    and displaced or resized, and ends at opacity 1 with no offset and full size.
   */
  lemma LoadTimelineSettles()
    ensures forall t :: t in LoadTimeline ==>
      && t.from.opacity == 0.0 && t.to.opacity == 1.0
      && (t.from.y.Some? || t.from.scale.Some?)
      && (t.from.y.Some? <==> t.to.y.Some?) && (t.to.y.Some? ==> t.to.y.value == 0.0)
      && (t.from.scale.Some? <==> t.to.scale.Some?) && (t.to.scale.Some? ==> t.to.scale.value == 1.0)
  {
  }

  /**
    The second card-text element is the last to start and the last to finish: the whole
    load animation is over 1.55 s after mounting.
   */
  lemma {:induction false} LoadTimelineEndsWithCardText()
    ensures LoadTimeline[5].elements == 2
    ensures ChildEnd(LoadTimeline[5], 1) == 1.55
    ensures forall i, k :: 0 <= i < |LoadTimeline| && 0 <= k < LoadTimeline[i].elements ==>
      ChildStart(LoadTimeline[i], k) <= ChildStart(LoadTimeline[5], 1) && ChildEnd(LoadTimeline[i], k) <= 1.55
  {
    forall i, k | 0 <= i < |LoadTimeline| && 0 <= k < LoadTimeline[i].elements
      ensures ChildStart(LoadTimeline[i], k) <= ChildStart(LoadTimeline[5], 1) && ChildEnd(LoadTimeline[i], k) <= 1.55
    {
      var t := LoadTimeline[i];
      if i < 5 {
        assert t.elements == 1 && k == 0;
        assert ChildStart(t, k) == t.position;
      } else if k == 0 {
        assert ChildStart(t, k) == t.position;
      }
    }
  }

  /** One `.to` of the scroll-out timeline: target, position, and the values it drives; an absent channel is left alone. */
  datatype ScrollTween = ScrollTween(target: HeroTarget, position: real, y: Option<real>, scale: Option<real>, opacity: real)

  const ScrollOutTimeline: seq<ScrollTween> := [
    ScrollTween(Card, 0.0, None, Some(6.0), 0.0),
    ScrollTween(Headline, 0.0, Some(-80.0), None, 0.0),
    ScrollTween(Subheadline, 0.0, Some(-60.0), None, 0.0),
    ScrollTween(CallsToAction, 0.0, Some(-50.0), None, 0.0),
    ScrollTween(Background, 0.0, None, Some(1.1), 0.0)
  ]

  /**
    Scrolling out moves all five elements at once and fades each of them out completely;
    besides the fade each tween drives one motion: text moves up, the card and the
    background grow.
   */
  lemma ScrollOutHidesAll()
    ensures forall i, j :: 0 <= i < j < |ScrollOutTimeline| ==> ScrollOutTimeline[i].target != ScrollOutTimeline[j].target
    ensures forall t :: t in ScrollOutTimeline ==> t.position == 0.0 && t.opacity == 0.0
    ensures forall t :: t in ScrollOutTimeline ==> (t.y.Some? <==> t.scale.None?)
    ensures forall t :: t in ScrollOutTimeline && t.y.Some? ==> t.y.value < 0.0
    ensures forall t :: t in ScrollOutTimeline && t.scale.Some? ==> t.scale.value > 1.0
  {
  }
}
