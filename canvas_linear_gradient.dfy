/**
 * CanvasLinearGradient: a width×height canvas filled with a horizontal
 * four-stop gradient whose colours are #CCFF00 spun by the three angles
 * of its `colors` argument, the first angle at both ends.
 */
module CanvasLinearGradient {
  import opened Wrappers
  import opened Colors
  import opened Canvas2D

  /** The `colors` argument: three spin angles. */
  datatype SpinAngles = SpinAngles(color1: real, color2: real, color3: real)

  /** Reading `colors.color1` of an absent argument throws a TypeError. */
  datatype Error = TypeError

  /** The constructor; `colors` is None when the caller leaves it out. */
  function Build(width: nat, height: nat, colors: Option<SpinAngles>): (r: Result<Canvas, Error>)
    ensures r.Failure? <==> colors.None?
    ensures r.Success? ==>
              var c := r.value;
              var g := c.fillStyle;
              && c.width == width && c.height == height
              && c.filled == Rect(0.0, 0.0, width as real, height as real)
              && g.Linear? && g.x0 == 0.0 && g.x1 == width as real
              && g.y0 == g.y1 == height as real / 2.0
              && |g.stops| == 4
              && IncreasingOffsets(g.stops)
              && g.stops[0].offset == 0.0 && g.stops[1].offset == 0.35
              && g.stops[2].offset == 0.72 && g.stops[3].offset == 1.0
              && g.stops[0].color == g.stops[3].color == HueColor(Spin(Lime, colors.value.color1))
              && g.stops[1].color == HueColor(Spin(Lime, colors.value.color2))
              && g.stops[2].color == HueColor(Spin(Lime, colors.value.color3))
  {
    match colors
    case None => Failure(TypeError)
    case Some(angles) =>
      var stops := [
        ColorStop(0.0, HueColor(Spin(Lime, angles.color1))),
        ColorStop(0.35, HueColor(Spin(Lime, angles.color2))),
        ColorStop(0.72, HueColor(Spin(Lime, angles.color3))),
        ColorStop(1.0, HueColor(Spin(Lime, angles.color1)))
      ];
      var gradient := Linear(0.0, height as real / 2.0, width as real, height as real / 2.0, stops);
      Success(Canvas(width, height, gradient, Rect(0.0, 0.0, width as real, height as real)))
  }

  /** StarField builds its gradient as `new CanvasLinearGradient(width, height)`, which always throws. */
  lemma StarFieldCallThrows(width: nat, height: nat)
    ensures Build(width, height, None) == Failure(TypeError)
  {
  }
}
