/**
 * GradientGenerator: a palette of `colorNum` colours derived from #CCFF00.
 * The seed is spun by a random whole number of degrees; then either every
 * colour is the seed spun by its own random rotation, or colour i is the
 * seed spun by `colorRotation + colorSize·i`, an evenly stepped walk round
 * the colour wheel.
 */
module GradientGenerator {
  import opened Colors
  import JsMath

  /** The Math.random() results the constructor consumes, in the order it asks for them. */
  datatype Draws = Draws(rotation: real, size: real, base: real, perColor: seq<real>)

  predicate ValidDraws(d: Draws, colorNum: int, random: bool) {
    && JsMath.IsDraw(d.rotation) && JsMath.IsDraw(d.size) && JsMath.IsDraw(d.base)
    && (random ==> |d.perColor| >= colorNum)
    && (forall i :: 0 <= i < |d.perColor| ==> JsMath.IsDraw(d.perColor[i]))
  }

  /** randomColorRotation: `Math.round(Math.random() * 360)`. */
  function RandomColorRotation(r: real): (deg: int)
    requires JsMath.IsDraw(r)
    ensures 0 <= deg <= 360
  {
    JsMath.RandomRotation(r)
  }

  /** `30 + Math.random() * 80`: the hue step of an evenly stepped palette. */
  function ColorSize(r: real): (size: real)
    requires JsMath.IsDraw(r)
    ensures 30.0 <= size < 110.0
  {
    30.0 + r * 80.0
  }

  /** The seed spun by deg degrees, for a whole number deg. */
  function SpinDegrees(seed: Hue, deg: int): Hue {
    Spin(seed, deg as real)
  }

  /** c is the seed spun by a whole number of degrees in [0, 360]. */
  ghost predicate IsWholeSpinOf(c: Hue, seed: Hue) {
    exists deg :: 0 <= deg <= 360 && c == SpinDegrees(seed, deg)
  }

  /** #CCFF00 spun by a random whole number of degrees. */
  function BaseColor(r: real): (base: Hue)
    requires JsMath.IsDraw(r)
    ensures IsWholeSpinOf(base, Lime)
  {
    var deg := RandomColorRotation(r);
    assert Spin(Lime, deg as real) == SpinDegrees(Lime, deg);
    Spin(Lime, deg as real)
  }

  /** The number of colours the loop pushes: none when colorNum is not positive. */
  function PaletteSize(colorNum: int): nat {
    if colorNum > 0 then colorNum else 0
  }

  /** The rotation of colour i of an evenly stepped palette: `colorRotation + colorSize * i`. */
  function StepAngle(rotation: int, size: real, i: nat): real {
    rotation as real + size * i as real
  }

  /** The next colour is one more step round the wheel. */
  lemma StepAngleNext(rotation: int, size: real, i: nat)
    ensures StepAngle(rotation, size, i + 1) == StepAngle(rotation, size, i) + size
  {
    assert (i + 1) as real == i as real + 1.0;
    assert size * (i as real + 1.0) == size * i as real + size;
  }

  /** Colour i of an evenly stepped palette. */
  function SteppedColor(base: Hue, rotation: int, size: real, i: nat): Hue {
    Spin(base, StepAngle(rotation, size, i))
  }

  /** Colour i of a random palette. */
  function RandomColor(base: Hue, perColor: seq<real>, i: nat): Hue
    requires i < |perColor| && JsMath.IsDraw(perColor[i])
  {
    Spin(base, RandomColorRotation(perColor[i]) as real)
  }

  /** The palette the constructor builds. */
  function Palette(colorNum: int, random: bool, d: Draws): (p: seq<Hue>)
    requires ValidDraws(d, colorNum, random)
    ensures |p| == PaletteSize(colorNum)
  {
    var base := BaseColor(d.base);
    if random then
      seq(PaletteSize(colorNum), i requires 0 <= i < PaletteSize(colorNum) => RandomColor(base, d.perColor, i))
    else
      seq(PaletteSize(colorNum), i requires 0 <= i < PaletteSize(colorNum) =>
        SteppedColor(base, RandomColorRotation(d.rotation), ColorSize(d.size), i))
  }

  /** In a stepped palette each colour is the previous one spun by colorSize. */
  lemma SteppedNeighbours(colorNum: int, d: Draws, i: nat)
    requires ValidDraws(d, colorNum, false)
    requires i + 1 < PaletteSize(colorNum)
    ensures Palette(colorNum, false, d)[i + 1] == Spin(Palette(colorNum, false, d)[i], ColorSize(d.size))
  {
    var base := BaseColor(d.base);
    var rotation := RandomColorRotation(d.rotation);
    var size := ColorSize(d.size);
    SpinCompose(base, StepAngle(rotation, size, i), size);
    StepAngleNext(rotation, size, i);
  }

  /** In a random palette each colour is the seed spun by a whole number of degrees in [0, 360]. */
  lemma RandomColorsAreSpunSeeds(colorNum: int, d: Draws, i: nat)
    requires ValidDraws(d, colorNum, true)
    requires i < PaletteSize(colorNum)
    ensures IsWholeSpinOf(Palette(colorNum, true, d)[i], BaseColor(d.base))
  {
    var deg := RandomColorRotation(d.perColor[i]);
    assert Palette(colorNum, true, d)[i] == SpinDegrees(BaseColor(d.base), deg);
  }

  class Generator {
    var colors: seq<Hue>

    /** `new GradientGenerator(colorNum, random)` with its random draws made explicit. */
    constructor (colorNum: int, random: bool, d: Draws)
      requires ValidDraws(d, colorNum, random)
      ensures colors == Palette(colorNum, random, d)
      ensures |colors| == PaletteSize(colorNum)
    {
      var colorRotation := RandomColorRotation(d.rotation);
      var colorSize := ColorSize(d.size);
      var baseColor := BaseColor(d.base);
      colors := [];
      new;
      var i := 0;
      if random {
        while i < colorNum
          invariant 0 <= i <= PaletteSize(colorNum) && |colors| == i
          invariant forall j :: 0 <= j < i ==> colors[j] == RandomColor(baseColor, d.perColor, j)
        {
          colors := colors + [Spin(baseColor, RandomColorRotation(d.perColor[i]) as real)];
          i := i + 1;
        }
      } else {
        while i < colorNum
          invariant 0 <= i <= PaletteSize(colorNum) && |colors| == i
          invariant forall j :: 0 <= j < i ==> colors[j] == SteppedColor(baseColor, colorRotation, colorSize, j)
        {
          colors := colors + [Spin(baseColor, StepAngle(colorRotation, colorSize, i))];
          i := i + 1;
        }
      }
    }
  }
}
