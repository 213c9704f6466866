/**
 * CanvasRadialGradient: a width×height canvas filled with a radial
 * gradient from the centre out to half the width, through two or three
 * random spins of #CCFF00 and fading to transparent at the rim.
 */
module CanvasRadialGradient {
  import opened Colors
  import opened Canvas2D
  import JsMath
  import RandomCanvasLinearGradient

  /** The constructor, with its Math.random() results as parameters; it returns the canvas. */
  method Build(width: nat, height: nat, amountDraw: real, colorDraws: seq<real>) returns (canvas: Canvas)
    requires JsMath.IsDraw(amountDraw) && RandomCanvasLinearGradient.AllDraws(colorDraws) && |colorDraws| >= RandomCanvasLinearGradient.ColorAmount(amountDraw)
    ensures canvas.width == width && canvas.height == height
    ensures canvas.filled == Rect(0.0, 0.0, width as real, height as real)
    ensures var g := canvas.fillStyle;
            && g.Radial?
            && g.cx0 == g.cx1 == width as real / 2.0 && g.cy0 == g.cy1 == height as real / 2.0
            && g.r0 == 0.0 && g.r1 == width as real / 2.0
    ensures var stops, n := canvas.fillStyle.stops, RandomCanvasLinearGradient.ColorAmount(amountDraw);
            && |stops| == n + 1
            && (forall i :: 0 <= i < n ==> stops[i] == ColorStop(EvenOffset(i, n), HueColor(RandomCanvasLinearGradient.RandomLime(colorDraws[i]))))
            && stops[n] == ColorStop(1.0, Transparent)
  {
    var colorAmount := RandomCanvasLinearGradient.ColorAmount(amountDraw);
    var colors: seq<Hue> := [];
    var i := 0;
    while i < colorAmount
      invariant 0 <= i <= colorAmount && |colors| == i
      invariant forall k :: 0 <= k < i ==> colors[k] == RandomCanvasLinearGradient.RandomLime(colorDraws[k])
    {
      colors := colors + [Spin(Lime, JsMath.RandomRotation(colorDraws[i]) as real)];
      i := i + 1;
    }

    var stops: seq<ColorStop> := [];
    i := 0;
    while i < |colors|
      invariant 0 <= i <= |colors| && |stops| == i
      invariant forall k :: 0 <= k < i ==> stops[k] == ColorStop(EvenOffset(k, |colors|), HueColor(colors[k]))
    {
      stops := stops + [ColorStop(i as real / |colors| as real, HueColor(colors[i]))];
      i := i + 1;
    }
    stops := stops + [ColorStop(1.0, Transparent)];

    var w, h := width as real, height as real;
    var gradient := Radial(w / 2.0, h / 2.0, 0.0, w / 2.0, h / 2.0, w / 2.0, stops);
    canvas := Canvas(width, height, gradient, Rect(0.0, 0.0, w, h));
  }

  /** The colour stops lie in [0, 1) and, with the transparent rim at 1, strictly increase. */
  lemma {:induction false} StopsIncreaseToRim(stops: seq<ColorStop>, n: nat)
    requires n > 0 && |stops| == n + 1
    requires forall i :: 0 <= i < n ==> stops[i].offset == EvenOffset(i, n)
    requires stops[n].offset == 1.0
    ensures forall i :: 0 <= i < n ==> 0.0 <= stops[i].offset < 1.0
    ensures IncreasingOffsets(stops)
  {
    forall i | 0 <= i < n
      ensures 0.0 <= stops[i].offset < 1.0
    {
      EvenOffsetBounds(i, n, n);
      EvenOffsetBounds(0, n, n);
    }
    forall i, j | 0 <= i < j < |stops|
      ensures stops[i].offset < stops[j].offset
    {
      EvenOffsetBounds(i, j, n);
    }
  }
}
