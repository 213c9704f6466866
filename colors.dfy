/**
 * Colours as hue angles. tinycolor's `spin(d)` turns a colour's hue by d
 * degrees and wraps the result into [0, 360); saturation and lightness do
 * not change, so a colour derived from a fixed seed is fully described by
 * its hue.
 */
module Colors {

  /** A hue angle in degrees. */
  type Hue = h: real | 0.0 <= h < 360.0

  /** The hue of #CCFF00 (red 204, green 255, blue 0), the seed of every palette. */
  const Lime: Hue := 72.0

  /** The hue of #00CCFF (red 0, green 204, blue 255), the seed of the drawn shape. */
  const Cyan: Hue := 192.0

  /** Whole turns contained in x degrees. */
  function Turns(x: real): int {
    (x / 360.0).Floor
  }

  /** tinycolor's spin: (h + amount) wrapped into [0, 360). */
  function Spin(h: Hue, amount: real): (r: Hue)
    ensures 0.0 <= h + amount < 360.0 ==> r == h + amount
  {
    var x := h + amount;
    x - 360.0 * Turns(x) as real
  }

  /** Removing k whole turns does not change the number of turns left over. */
  lemma TurnsShift(x: real, k: int)
    ensures Turns(x - 360.0 * k as real) == Turns(x) - k
  {
    assert (x - 360.0 * k as real) / 360.0 == x / 360.0 - k as real;
  }

  /** Spinning twice is spinning once by the sum. */
  lemma SpinCompose(h: Hue, a: real, b: real)
    ensures Spin(Spin(h, a), b) == Spin(h, a + b)
  {
    var k := Turns(h + a);
    TurnsShift(h + a + b, k);
    assert Spin(h, a) + b == h + a + b - 360.0 * k as real;
  }

  /** A whole turn is no turn at all. */
  lemma SpinFullTurn(h: Hue, a: real)
    ensures Spin(h, a + 360.0) == Spin(h, a)
  {
    TurnsShift(h + a + 360.0, 1);
  }

  /** tinycolor's tetrad: the colour and its three quarter-turn companions. */
  function Tetrad(h: Hue): (t: seq<Hue>)
    ensures |t| == 4 && t[0] == h
    ensures forall i :: 0 <= i < 3 ==> t[i + 1] == Spin(t[i], 90.0)
  {
    SpinCompose(h, 90.0, 90.0);
    SpinCompose(h, 180.0, 90.0);
    [h, Spin(h, 90.0), Spin(h, 180.0), Spin(h, 270.0)]
  }
}
