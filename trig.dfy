/** The trigonometry behind the abandoned-station rings: `Math.cos` and
    `Math.sin` are not modelled as concrete functions, only as values bounded
    by 1 in absolute value. */
module Trig {

  /** A real in [-1, 1], the range of cos and sin. */
  newtype Unit = r: real | -1.0 <= r <= 1.0

  /** cos and sin of a turn (the angle as a fraction of a full circle). */
  type Circle = real -> (Unit, Unit)

  /** A factor in [-1, 1] scales `r` to at most `r` either way. */
  lemma ScaleWithin(c: real, r: real)
    requires -1.0 <= c <= 1.0 && r >= 0.0
    ensures -r <= c * r <= r
  {
    assert (1.0 - c) * r >= 0.0 && (1.0 + c) * r >= 0.0;
  }

  /** The x offset of a point at distance `r` in direction `t`. */
  function OffsetX(trig: Circle, t: real, r: real): (dx: real)
    requires r >= 0.0
    ensures -r <= dx <= r
  {
    var c := trig(t).0 as real;
    ScaleWithin(c, r);
    c * r
  }

  /** The y offset of a point at distance `r` in direction `t`. */
  function OffsetY(trig: Circle, t: real, r: real): (dy: real)
    requires r >= 0.0
    ensures -r <= dy <= r
  {
    var s := trig(t).1 as real;
    ScaleWithin(s, r);
    s * r
  }
}
