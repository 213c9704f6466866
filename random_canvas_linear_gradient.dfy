/**
 * RandomCanvasLinearGradient: a width×height canvas filled with a
 * horizontal gradient through two or three random spins of #CCFF00,
 * ending on the first colour again so that the texture wraps seamlessly.
 */
module RandomCanvasLinearGradient {
  import opened Colors
  import opened Canvas2D
  import JsMath

  /** `2 + Math.round(Math.random() * 1)` */
  function ColorAmount(r: real): (n: nat)
    requires JsMath.IsDraw(r)
    ensures n == 2 || n == 3
  {
    2 + JsMath.RandomUpTo(r, 1)
  }

  /** `tinycolor("#CCFF00").spin(Math.round(Math.random() * 360))` */
  function RandomLime(r: real): Hue
    requires JsMath.IsDraw(r)
  {
    Spin(Lime, JsMath.RandomRotation(r) as real)
  }

  predicate AllDraws(draws: seq<real>) {
    forall i :: 0 <= i < |draws| ==> JsMath.IsDraw(draws[i])
  }

  /**
   * The constructor: `amountDraw` and `colorDraws` are its Math.random()
   * results. It returns the canvas, as the source's constructor does.
   */
  method Build(width: nat, height: nat, amountDraw: real, colorDraws: seq<real>) returns (canvas: Canvas)
    requires JsMath.IsDraw(amountDraw) && AllDraws(colorDraws) && |colorDraws| >= ColorAmount(amountDraw)
    ensures canvas.width == width && canvas.height == height
    ensures canvas.filled == Rect(0.0, 0.0, width as real, height as real)
    ensures var g := canvas.fillStyle;
            && g.Linear?
            && g.x0 == 0.0 && g.x1 == width as real
            && g.y0 == height as real / 2.0 && g.y1 == g.y0
    ensures var stops, n := canvas.fillStyle.stops, ColorAmount(amountDraw);
            && |stops| == n + 1
            && (forall i :: 0 <= i <= n ==> stops[i].offset == EvenOffset(i, n))
            && (forall i :: 0 <= i < n ==> stops[i].color == HueColor(RandomLime(colorDraws[i])))
            && stops[n].color == stops[0].color
  {
    var colorAmount := ColorAmount(amountDraw);
    var colors: seq<Hue> := [];
    var i := 0;
    while i < colorAmount
      invariant 0 <= i <= colorAmount && |colors| == i
      invariant forall k :: 0 <= k < i ==> colors[k] == RandomLime(colorDraws[k])
    {
      colors := colors + [Spin(Lime, JsMath.RandomRotation(colorDraws[i]) as real)];
      i := i + 1;
    }
    colors := colors + [colors[0]];

    var stops: seq<ColorStop> := [];
    i := 0;
    while i < |colors|
      invariant 0 <= i <= |colors| && |stops| == i
      invariant forall k :: 0 <= k < i ==> stops[k] == ColorStop(EvenOffset(k, colorAmount), HueColor(colors[k]))
    {
      stops := stops + [ColorStop(i as real / colorAmount as real, HueColor(colors[i]))];
      i := i + 1;
    }

    var gradient := Linear(0.0, height as real / 2.0, width as real, height as real / 2.0, stops);
    canvas := Canvas(width, height, gradient, Rect(0.0, 0.0, width as real, height as real));
  }

  /** The stops run from exactly 0 to exactly 1 in strictly increasing, evenly spaced offsets. */
  lemma {:induction false} StopsSpanUnitInterval(stops: seq<ColorStop>, n: nat)
    requires n > 0 && |stops| == n + 1
    requires forall i :: 0 <= i <= n ==> stops[i].offset == EvenOffset(i, n)
    ensures stops[0].offset == 0.0 && stops[n].offset == 1.0
    ensures IncreasingOffsets(stops)
    ensures forall i :: 0 <= i < n ==> stops[i + 1].offset - stops[i].offset == 1.0 / n as real
  {
    EvenOffsetBounds(0, 1, n);
    forall i, j | 0 <= i < j < |stops|
      ensures stops[i].offset < stops[j].offset
    {
      EvenOffsetBounds(i, j, n);
    }
    forall i | 0 <= i < n
      ensures stops[i + 1].offset - stops[i].offset == 1.0 / n as real
    {
      assert (i + 1) as real / n as real - i as real / n as real == 1.0 / n as real;
    }
  }
}
