/**
 * The entry animation shared by the sections: `fadeIn(direction, delay)`
 * builds a hidden state offset by 40 pixels and a shown state at rest.
 */
module Motion {

  /** The side an element travels towards as it appears. */
  datatype Direction = Up | Down | Left | Right

  /** The start pose: transparent and displaced. */
  datatype Hidden = Hidden(opacity: int, x: int, y: int)

  /** The spring transition into the shown pose; only its type and delay are modelled. */
  datatype Transition = Transition(kind: string, delay: real)

  /** The end pose: opaque and at its layout position. */
  datatype Shown = Shown(opacity: int, x: int, y: int, transition: Transition)

  datatype Variants = Variants(hidden: Hidden, show: Shown)

  /** The distance, in pixels, an element travels while fading in. */
  const Travel: int := 40

  /** `fadeIn`, with its default arguments `"up"` and `0`. */
  function FadeIn(direction: Direction := Up, delay: real := 0.0): (v: Variants)
    ensures v.hidden.opacity == 0
    ensures v.show.opacity == 1 && v.show.x == 0 && v.show.y == 0
    ensures v.show.transition == Transition("spring", delay)
  {
    Variants(
      Hidden(0,
             if direction == Left then Travel else if direction == Right then -Travel else 0,
             if direction == Up then Travel else if direction == Down then -Travel else 0),
      Shown(1, 0, 0, Transition("spring", delay)))
  }

  /**
   * The unit step of each direction in screen coordinates, where y grows
   * downwards: an independent statement of what each direction means.
   */
  function Heading(direction: Direction): (int, int) {
    match direction
    case Up => (0, -1)
    case Down => (0, 1)
    case Left => (-1, 0)
    case Right => (1, 0)
  }

  /** From hidden to shown, the element moves exactly `Travel` pixels along its heading. */
  lemma TravelsAlongHeading(direction: Direction, delay: real)
    ensures var v := FadeIn(direction, delay);
            v.show.x - v.hidden.x == Travel * Heading(direction).0 &&
            v.show.y - v.hidden.y == Travel * Heading(direction).1
  {
  }

  /** The four hidden offsets, one per direction. */
  lemma HiddenOffsets(delay: real)
    ensures FadeIn(Up, delay).hidden == Hidden(0, 0, 40)
    ensures FadeIn(Down, delay).hidden == Hidden(0, 0, -40)
    ensures FadeIn(Left, delay).hidden == Hidden(0, 40, 0)
    ensures FadeIn(Right, delay).hidden == Hidden(0, -40, 0)
  {
  }

  /** Exactly one hidden axis is displaced, always by 40 pixels. */
  lemma OneAxisDisplaced(direction: Direction, delay: real)
    ensures var h := FadeIn(direction, delay).hidden;
            (h.x == 0) != (h.y == 0) && (h.x == 40 || h.x == -40 || h.y == 40 || h.y == -40)
  {
  }

  /** The shown pose and the transition do not depend on the direction. */
  lemma ShowIgnoresDirection(d1: Direction, d2: Direction, delay: real)
    ensures FadeIn(d1, delay).show == FadeIn(d2, delay).show
  {
  }

  /** Distinct directions give distinct hidden poses, so the direction is never lost. */
  lemma DirectionDetermined(d1: Direction, d2: Direction, delay: real)
    ensures FadeIn(d1, delay).hidden == FadeIn(d2, delay).hidden <==> d1 == d2
  {
  }

  /** Omitting the arguments means `"up"` with no delay. */
  lemma Defaults()
    ensures FadeIn() == FadeIn(Up, 0.0)
    ensures FadeIn() == Variants(Hidden(0, 0, 40), Shown(1, 0, 0, Transition("spring", 0.0)))
  {
  }
}
