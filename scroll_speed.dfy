/** The scroll-speed sample both scroll listeners take
    (utils/smoothScroll.ts and components/sakura-animation.tsx): distance
    moved per 100 ms of wall time. */
module Speed {

  function Abs(x: real): (a: real)
    ensures a >= 0.0 && (a == x || a == -x)
  {
    if x < 0.0 then -x else x
  }

  /** `Math.abs(dy) / dt * 100`, for a positive time step `dt` in ms. */
  function SpeedPer100ms(dy: real, dt: real): (v: real)
    requires dt > 0.0
    ensures v >= 0.0
    ensures v == 0.0 <==> dy == 0.0
  {
    Abs(dy) / dt * 100.0
  }

  /** The sample does not depend on the direction of the scroll. */
  lemma SpeedSymmetric(dy: real, dt: real)
    requires dt > 0.0
    ensures SpeedPer100ms(-dy, dt) == SpeedPer100ms(dy, dt)
  {
  }

  /** Moving further in the same time gives a larger sample. */
  lemma SpeedMonotone(dy1: real, dy2: real, dt: real)
    requires dt > 0.0 && Abs(dy1) <= Abs(dy2)
    ensures SpeedPer100ms(dy1, dt) <= SpeedPer100ms(dy2, dt)
  {
    var a, b := Abs(dy1), Abs(dy2);
    assert b / dt - a / dt == (b - a) / dt;
    assert (b - a) / dt >= 0.0;
  }
}
