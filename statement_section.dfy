/**
  The full-screen pinned statement sections (src/components/sections/StatementSection.tsx):
  the direction presets for the headline's entrance and exit, the scroll timeline
  the section builds from them, its rebuild when the direction changes, and the
  stacking order of the three sections on the home page (src/App.tsx).
 */
module StatementSection {
  import opened Wrappers

  datatype Direction = Top | Bottom | Left | Right | Scale

  /** `entranceDirection = 'bottom'` when the prop is not given. */
  function DirectionOrDefault(given: Option<Direction>): (d: Direction)
    ensures given.None? ==> d == Bottom
    ensures given.Some? ==> d == given.value
  {
    given.GetOr(Bottom)
  }

  /** A CSS length as GSAP receives it: a `vh` or `vw` string, or a plain number of pixels. */
  datatype Length = Vh(vh: real) | Vw(vw: real) | Pixels(px: real)

  /** The tween variables the section sets: each channel absent or given. */
  datatype StyleVars = StyleVars(x: Option<Length>, y: Option<Length>, scale: Option<real>, opacity: Option<real>)

  /** How many of the motion channels x, y and scale a set of variables gives. */
  function MotionChannels(v: StyleVars): nat {
    (if v.x.Some? then 1 else 0) + (if v.y.Some? then 1 else 0) + (if v.scale.Some? then 1 else 0)
  }

  predicate IsTranslate(d: Direction) {
    d != Scale
  }

  /** The signed amount of a translate preset, whichever axis it uses. */
  function Offset(v: StyleVars): real {
    if v.x.Some? then Amount(v.x.value) else if v.y.Some? then Amount(v.y.value) else 0.0
  }

  function Amount(l: Length): real {
    match l
    case Vh(a) => a
    case Vw(a) => a
    case Pixels(a) => a
  }

  function Abs(a: real): real {
    if a < 0.0 then -a else a
  }

  /** The unit of the channel a translate preset moves. */
  predicate SameUnit(a: Length, b: Length) {
    (a.Vh? && b.Vh?) || (a.Vw? && b.Vw?) || (a.Pixels? && b.Pixels?)
  }

  /**
    `entranceFrom`: where the headline starts. Every preset starts invisible and moves
    exactly one channel: vertical presets along y in vh, horizontal ones along x in vw,
    and the scale preset from below full size.
   */
  function EntranceFrom(d: Direction): (v: StyleVars)
    ensures v.opacity == Some(0.0)
    ensures MotionChannels(v) == 1
    ensures (d == Top || d == Bottom) ==> v.y.Some? && v.y.value.Vh?
    ensures (d == Left || d == Right) ==> v.x.Some? && v.x.value.Vw?
    ensures d == Scale ==> v.scale.Some? && v.scale.value < 1.0
    ensures (d == Top || d == Left) ==> Offset(v) < 0.0
    ensures (d == Bottom || d == Right) ==> Offset(v) > 0.0
  {
    match d
    case Top => StyleVars(None, Some(Vh(-50.0)), None, Some(0.0))
    case Bottom => StyleVars(None, Some(Vh(50.0)), None, Some(0.0))
    case Left => StyleVars(Some(Vw(-60.0)), None, None, Some(0.0))
    case Right => StyleVars(Some(Vw(60.0)), None, None, Some(0.0))
    case Scale => StyleVars(None, None, Some(0.75), Some(0.0))
  }

  /** `exitTo`: where the headline goes when the section leaves. Every preset ends invisible. */
  function ExitTo(d: Direction): (v: StyleVars)
    ensures v.opacity == Some(0.0)
    ensures MotionChannels(v) == 1
    ensures d == Scale ==> v.scale.Some? && v.scale.value > 1.0
  {
    match d
    case Top => StyleVars(None, Some(Vh(35.0)), None, Some(0.0))
    case Bottom => StyleVars(None, Some(Vh(-35.0)), None, Some(0.0))
    case Left => StyleVars(Some(Vw(45.0)), None, None, Some(0.0))
    case Right => StyleVars(Some(Vw(-45.0)), None, None, Some(0.0))
    case Scale => StyleVars(None, None, Some(1.1), Some(0.0))
  }

  /**
    The exit continues the entrance's motion rather than reversing it: it moves the same
    channel in the same unit, to the opposite side and by a smaller amount; for the scale
    preset the headline grows in from below full size and keeps growing past it on exit.
   */
  lemma ExitContinuesEntrance(d: Direction)
    ensures var enter, exit := EntranceFrom(d), ExitTo(d);
      && enter.x.Some? == exit.x.Some? && enter.y.Some? == exit.y.Some? && enter.scale.Some? == exit.scale.Some?
      && (enter.x.Some? ==> SameUnit(enter.x.value, exit.x.value))
      && (enter.y.Some? ==> SameUnit(enter.y.value, exit.y.value))
      && (IsTranslate(d) ==> Offset(enter) * Offset(exit) < 0.0 && Abs(Offset(exit)) < Abs(Offset(enter)))
      && (d == Scale ==> enter.scale.value < 1.0 < exit.scale.value)
  {
  }

  datatype Target = Headline | Subheadline | Background

  /** One `fromTo` call on the scroll timeline: target, start vars, end vars, and start position (0..1 of the scroll span). */
  datatype Tween = Tween(target: Target, from: StyleVars, to: StyleVars, position: real)

  const NoVars: StyleVars := StyleVars(None, None, None, None)

  /** The rest state: no offset, full size, fully visible. */
  const Identity: StyleVars := StyleVars(Some(Pixels(0.0)), Some(Pixels(0.0)), Some(1.0), Some(1.0))

  /** Every channel that `from` moves, `to` gives, at its identity value. */
  predicate SettlesAtIdentity(from: StyleVars, to: StyleVars) {
    && (from.x.Some? ==> to.x == Identity.x)
    && (from.y.Some? ==> to.y == Identity.y)
    && (from.scale.Some? ==> to.scale == Identity.scale)
    && to.opacity == Identity.opacity
  }

  /** The timeline built for direction `d`: three entrance tweens (0 to 0.3), then three exit tweens (0.7 on). */
  function ScrollTimeline(d: Direction): (tl: seq<Tween>)
    ensures |tl| == 6
    ensures tl[0].target == Headline && tl[0].from == EntranceFrom(d)
    ensures tl[3].target == Headline && tl[3].to == ExitTo(d)
    ensures forall i, j :: 0 <= i < 3 <= j < 6 ==> tl[i].position < 0.3 < 0.7 <= tl[j].position
  {
    [ Tween(Headline, EntranceFrom(d), Identity, 0.0),
      Tween(Subheadline, StyleVars(None, Some(Vh(15.0)), None, Some(0.0)),
            StyleVars(None, Some(Pixels(0.0)), None, Some(1.0)), 0.1),
      Tween(Background, StyleVars(None, None, Some(1.15), Some(0.0)), StyleVars(None, None, Some(1.0), Some(1.0)), 0.0),
      Tween(Headline, StyleVars(None, None, None, Some(1.0)), ExitTo(d), 0.7),
      Tween(Subheadline, StyleVars(None, None, None, Some(1.0)), StyleVars(None, None, None, Some(0.0)), 0.72),
      Tween(Background, StyleVars(None, None, Some(1.0), Some(1.0)), StyleVars(None, None, Some(1.08), Some(0.5)), 0.7) ]
  }

  /**
    The timeline's shape for every direction: each target gets one entrance and one exit
    tween; every entrance starts before every exit; entrances start invisible and settle
    at the rest state; exits start fully visible; the headline leaves by the exit preset,
    the subheadline only fades, and the background stays half visible and slightly enlarged.
   */
  lemma ScrollTimelineShape(d: Direction)
    ensures var tl := ScrollTimeline(d);
      && |tl| == 6
      && tl[0].target == tl[3].target == Headline
      && tl[1].target == tl[4].target == Subheadline
      && tl[2].target == tl[5].target == Background
      && (forall i, j :: 0 <= i < 3 <= j < 6 ==> tl[i].position < tl[j].position)
      && (forall i :: 0 <= i < 3 ==> tl[i].from.opacity == Some(0.0) && SettlesAtIdentity(tl[i].from, tl[i].to))
      && (forall j :: 3 <= j < 6 ==> tl[j].from.opacity == Some(1.0))
      && tl[3].to == ExitTo(d)
      && tl[4].to == NoVars.(opacity := Some(0.0))
      && tl[5].to.opacity.Some? && 0.0 < tl[5].to.opacity.value < 1.0
      && tl[5].to.scale.Some? && tl[5].to.scale.value > 1.0
  {
  }

  /** The animation state of one mounted section: nothing built, or the timeline built for one direction. */
  datatype Binding = Unbound | Bound(direction: Direction, timeline: seq<Tween>)

  /** The binding holds no tween built for any direction other than the current one. */
  predicate Current(b: Binding, d: Direction) {
    b.Unbound? || (b.direction == d && b.timeline == ScrollTimeline(d))
  }

  /**
    The layout effect on mount: with no section element nothing is built; otherwise the
    scroll timeline for the mounted direction is, so the binding starts out current.
   */
  function Setup(sectionPresent: bool, d: Direction): (b: Binding)
    ensures b.Bound? <==> sectionPresent
    ensures b.Bound? ==> b.direction == d && b.timeline == ScrollTimeline(d)
    ensures Current(b, d)
  {
    if sectionPresent then Bound(d, ScrollTimeline(d)) else Unbound
  }

  /**
    A re-render with direction `next` after `prev`: the effect depends on the direction only,
    so an unchanged direction keeps the binding; a changed one reverts it and builds afresh.
   */
  function Rerender(b: Binding, prev: Direction, next: Direction, sectionPresent: bool): (r: Binding)
    ensures prev == next ==> r == b
    ensures prev != next ==> (r.Bound? <==> sectionPresent)
    ensures prev != next && r.Bound? ==> r.direction == next && r.timeline == ScrollTimeline(next)
  {
    if prev == next then b else Setup(sectionPresent, next)
  }

  /** Re-rendering never leaves tweens built for an old direction in place. */
  lemma RerenderKeepsCurrent(b: Binding, prev: Direction, next: Direction, sectionPresent: bool)
    requires Current(b, prev)
    ensures Current(Rerender(b, prev, next, sectionPresent), next)
    ensures prev != next ==> (Rerender(b, prev, next, sectionPresent).Bound? <==> sectionPresent)
  {
  }

  /** The props of one statement section on the home page. */
  datatype StatementConfig = StatementConfig(headline: string, zIndex: int, direction: Direction)

  /** The three statement sections, in document order. */
  const HomeStatements: seq<StatementConfig> := [
    StatementConfig("Always On", 30, Bottom),
    StatementConfig("Fast Settlement", 40, Left),
    StatementConfig("Scale With Us", 50, Scale)
  ]

  /** Later sections stack above earlier ones, so a pinned section covers the one before it. */
  lemma HomeStatementsStackAscending()
    ensures forall i, j :: 0 <= i < j < |HomeStatements| ==> HomeStatements[i].zIndex < HomeStatements[j].zIndex
  {
  }
}
