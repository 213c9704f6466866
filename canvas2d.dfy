/**
 * The part of a 2D canvas the gradient textures use: a gradient object
 * with its colour stops, and the rectangle it fills. Pixels are not
 * modelled.
 */
module Canvas2D {
  import opened Colors

  datatype StopColor = HueColor(hue: Hue) | Transparent

  /** One addColorStop(offset, color) call. */
  datatype ColorStop = ColorStop(offset: real, color: StopColor)

  datatype Gradient =
    | Linear(x0: real, y0: real, x1: real, y1: real, stops: seq<ColorStop>)
    | Radial(cx0: real, cy0: real, r0: real, cx1: real, cy1: real, r1: real, stops: seq<ColorStop>)

  datatype Rect = Rect(x: real, y: real, width: real, height: real)

  /** A canvas after `fillStyle = gradient; fillRect(...)`. */
  datatype Canvas = Canvas(width: nat, height: nat, fillStyle: Gradient, filled: Rect)

  /** The stop offsets strictly increase. */
  predicate IncreasingOffsets(stops: seq<ColorStop>) {
    forall i, j :: 0 <= i < j < |stops| ==> stops[i].offset < stops[j].offset
  }

  /** `i / n`: the offset of stop i of n even steps. */
  function EvenOffset(i: nat, n: nat): real
    requires n > 0
  {
    i as real / n as real
  }

  /** Dividing by a positive denominator keeps a strict order. */
  lemma DivideKeepsOrder(x: real, y: real, d: real)
    requires d > 0.0 && x < y
    ensures x / d < y / d
  {
    var gap := y / d - x / d;
    assert gap * d == y - x;
    assert gap * d > 0.0;
  }

  /** Even offsets grow with the index and run from 0 to 1. */
  lemma EvenOffsetBounds(i: nat, j: nat, n: nat)
    requires n > 0 && i < j
    ensures EvenOffset(i, n) < EvenOffset(j, n)
    ensures EvenOffset(0, n) == 0.0 && EvenOffset(n, n) == 1.0
    ensures j <= n ==> EvenOffset(j, n) <= 1.0
    ensures i < n ==> EvenOffset(i, n) < 1.0
  {
    var nr := n as real;
    assert nr / nr == 1.0;
    DivideKeepsOrder(i as real, j as real, nr);
    if j < n {
      DivideKeepsOrder(j as real, nr, nr);
    }
    if i < n {
      DivideKeepsOrder(i as real, nr, nr);
    }
  }
}
